# Rusty2600 in Dafny

A model of the parts of Rusty2600, a cycle-accurate Atari 2600 emulator, whose correctness is a matter of
history: the lock-free audio ring, the 6507 CPU locked to the TIA color clock, the power-on seeding, and the
cartridge boards that are state machines over every bus access. What the original updates in place is a class
here, each method proved against a function on values; what the original promises is then proved of those
functions, over all inputs, all runs and all interleavings.

| file | what it holds |
|---|---|
| `Words.dfy`, `Bits.dfy`, `Bytes.dfy` | machine words with their wrapping, bit operations, little-endian bytes |
| `RingMemory.dfy`, `Coprocessor.dfy` | what writes leave in a memory addressed modulo its size; the ARM seen from outside |
| `AudioRing.dfy` | the producer/consumer step machine, its runs, and the queue class whose loads and stores are its steps |
| `Seeding.dfy` | SplitMix64 and the power-on RAM |
| `Machine.dfy` | the status register; registers, beam, clocks and bus history; exact time |
| `Arithmetic.dfy` | the register halves of the instructions; binary and decimal arithmetic over any number of bytes |
| `Instructions.dfy`, `OpcodeTable.dfy` | the instruction set decoded from the opcode's bit fields; the 256 opcodes it yields |
| `Timing.dfy`, `BusPatterns.dfy` | one bus access per cycle; what each instruction writes; calls and returns on RIOT RAM |
| `Cpu.dfy` | the CPU class: every micro-operation and all 256 dispatch arms |
| `Scheduler.dfy` | resets, instructions and stalls over whole runs |
| `SuperchargerBios.dfy`, `Supercharger.dfy`, `SuperchargerBoard.dfy` | the AR board, its BIOS, its bus and its loader |
| `DelayedWrite.dfy` | the AR board's delayed write over whole histories, at every count |
| `Dpc.dfy`, `DpcBoard.dfy` | the DPC board: fetchers, windows and noise |
| `DpcPlus.dfy`, `DpcPlusBoard.dfy` | the DPC+ board: stack, queue, windows, fractional and music fetchers, noise, services, FastFetch |
| `Cdf.dfy` | the CDF board: datastreams, FastFetch and FastJMP, amplitude |
| `FourA50.dfy` | the 4A50 board |
| `Boards.dfy` | the plain bank-switched boards, defined exactly where the code does not panic |
| `Cartridges.dfy` | every cartridge in one type, and the bus around the slot over whole runs |
| `Detection.dfy` | the dispatch that picks and builds a board |
| `Search.dfy` | the signature search |

Conventions. Arithmetic is that of the release profile, which has no overflow checks (`Cargo.toml:40-44`): a
wider result is cut explicitly. A debug build panics instead, for CDF also on a fast jump at offset 0 of a bank and on
the amplitude shift (`crates/rusty2600-cart/src/lib.rs:3275`) of a waveform of 32 or more, which release takes modulo
32. Masks and shifts on bus addresses are written as quotients and remainders or with `Bits.And`; shift registers are
bit vectors. The CPU's bus answers from an arbitrary stream of bytes, so every cartridge is covered;
the beam is the TIA's real one, `crates/rusty2600-tia/src/lib.rs:401-412` for the clock and 258-279 for the strobes.
A history is a sequence of accesses, and a claim about runs is a claim about every such sequence.

## Findings

Places where the code does something other than its comments, tests or plain reading suggest. Each has a lemma giving
the exact condition under which the intended behaviour holds, and one at an input where it does not.

- DPC+ register `$01` is meant to step the noise back (test at `crates/rusty2600-cart/src/lib.rs:5848`). Line 1976
  uses `&` where the inverse needs `^`: it undoes a step if and only if bit 10 of the state was clear
  (`PrevUndoesNextExactly`, `PrevCounterexample`).
- AR: `accesses_at_hold + 5` wraps before the counter does. A write latched at a count from 2^32-5 to 2^32-2 is
  cancelled by the very next access and never stored; one latched at 2^32-6 is never cancelled and may be stored
  2^32 accesses late. The intended rule holds on an access if and only if neither is the case
  (`DelayedWriteExactly`, `LostWrite`, `NeverDropped`, `LateWrite`). A debug build panics on the last five counts.
- `ARR` in decimal mode adds two bytes in a byte: the carry is that of the exact sum if and only if the masked
  accumulator is below `$F0` (`ArrCarryExactness`, `ArrLostCarry`). A debug build panics there.
- `Bank3F::new` and `Bank3E::new` cast the bank count to a byte: every run of such a board is free of panics if and
  only if its bank count is not a multiple of 256, as it is for 512 KiB (`ThreeFSafeExactly`, `HalfMegabyteDivides`).
  `detect` never builds an unsafe one.
- CDFJ+: a `DSWRITE` is dropped, and leaves the pointer where it was, if and only if it is past the 30 KiB of data;
  bytes written across the end come back if and only if those past it are zero (`WritePastEndIsDropped`,
  `RoundTripPlusExactly`, `LostByte`).

## Model

| member | source | states |
|---|---|---|
| RingArithmetic.SlotOfWrapped | crates/rusty2600-frontend/src/audio_ring.rs:87-90 | The wrapped counter plus an index, masked, is the unbounded position modulo the capacity. |
| RingArithmetic.DistanceOfWrapped | crates/rusty2600-frontend/src/audio_ring.rs:86-100 | A wrapping subtraction of wrapped counters is their true distance. |
| RingMachine.StepKeepsInv | crates/rusty2600-frontend/src/audio_ring.rs:82-134 | Every single load or store of either thread, stale loads included, keeps the ring's invariant and cannot panic. |
| RingMachine.NoOverwrite | crates/rusty2600-frontend/src/audio_ring.rs:84-91 | The slot a producer is about to store to holds no sample that is still unread. |
| RingMachine.DeliveredIsPrefixOfAccepted | crates/rusty2600-frontend/src/audio_ring.rs:82-134 | FIFO: under every interleaving of the two threads, the samples popped are a prefix of the samples accepted. |
| RingMachine.OccupancyStaysInCapacity | crates/rusty2600-frontend/src/audio_ring.rs:82-141 | The unbounded distance of tail and head stays within 0..=capacity, is what the wrapping subtraction gives, and the masked index is the position modulo capacity. |
| RingMachine.StepsAreSafe | crates/rusty2600-frontend/src/audio_ring.rs:82-134 | In every run no step underflows or indexes out of range, and a store leaves every unread sample in its slot. |
| RingMachine.PublishAcceptsPrefix | crates/rusty2600-frontend/src/audio_ring.rs:84-94 | A publish accepts exactly the stored prefix of the pushed samples, in order. |
| RingMachine.StreamsOnlyGrow | crates/rusty2600-frontend/src/audio_ring.rs:82-134 | Only a publish extends what was accepted and only a read extends what was delivered. |
| RingMachine.PlayingBursts | crates/rusty2600-frontend/src/audio_ring.rs:101-129 | Head moves only while playing; a burst starts only with the threshold met and ends only on an underrun. |
| RingMachine.HalfFullNeverStarves | crates/rusty2600-frontend/src/audio_ring.rs:75-134 | No wedge: an unpaused, non-empty pop that saw a half-full ring yields all it asked for or all there was, at least one sample. |
| RingMachine.MeasuredLength | crates/rusty2600-frontend/src/audio_ring.rs:137-141 | In every run the producer's `len`, pops interleaved with and between its two loads, is at least the true occupancy and at most the capacity, and exact when its second load is not stale. |
| RingMachine.ObservedLength | crates/rusty2600-frontend/src/audio_ring.rs:137-141 | A third handle's `len`, in every run: what it returns is within the capacity, and then the distance of the counters it loaded, if and only if the head it loads is not past the tail it loaded. |
| RingMachine.Overtaken | crates/rusty2600-frontend/src/audio_ring.rs:137-141 | A run in which one sample goes through between the two loads of such a call, which gets 2^64 - 1. |
| AudioQueue.CapacityIsValid | crates/rusty2600-frontend/src/audio_ring.rs:60-61 | For every request the capacity is a power of two between 2 and 2^63, so it divides the counter's range; it covers the request, and wastes less than half, unless the request is past 2^63. |
| AudioQueue.SampleQueue.WithCapacity | crates/rusty2600-frontend/src/audio_ring.rs:60-73 | A fresh queue is empty, stopped, and as large as the request rounded up to a power of two of at least 2. |
| AudioQueue.SampleQueue.SetStartThreshold | crates/rusty2600-frontend/src/audio_ring.rs:75-80 | The threshold is clamped to half the capacity and the queued samples stay. |
| AudioQueue.SampleQueue.Push | crates/rusty2600-frontend/src/audio_ring.rs:82-95 | The samples that fit are appended in order, the rest dropped, each load and store being one step of the machine. |
| AudioQueue.SampleQueue.PopOrSilence | crates/rusty2600-frontend/src/audio_ring.rs:97-134 | The buffer gets the oldest samples then silence, the queue loses exactly those, and the playing flag follows the hysteresis rule. |
| AudioQueue.SampleQueue.Len | crates/rusty2600-frontend/src/audio_ring.rs:137-141 | Two loads, each an event of the machine: with the consumer idle, the number of queued samples. |
| Seeding.SplitMix64.NextU64 | crates/rusty2600-core/src/scheduler.rs:100-106 | The state advances by the constant and the output is its mix. |
| Seeding.PowerOn | crates/rusty2600-core/src/scheduler.rs:116-141 | RAM is sixteen consecutive outputs in little-endian order, A, X and Y the next, the phase the seed modulo 3. |
| Seeding.UnmixMix | crates/rusty2600-core/src/scheduler.rs:102-105 | The output function is undone by the inverse mix: shifts and odd multipliers inverted modulo 2^64. |
| Seeding.MixUnmix | crates/rusty2600-core/src/scheduler.rs:102-105 | The other direction: the output function is onto, so a bijection on all 2^64 states. |
| Seeding.SeedRecovered | crates/rusty2600-core/src/scheduler.rs:100-125 | Any one chunk of power-on RAM determines the seed. |
| Seeding.EveryChunkOccurs | crates/rusty2600-core/src/scheduler.rs:100-125 | Every 64-bit word is the i-th chunk for some seed. |
| Seeding.SeedsDiffer | crates/rusty2600-core/src/scheduler.rs:116-133 | Different seeds differ in every single chunk of RAM and in the A/X/Y word. |
| Seeding.ChunksDiffer | crates/rusty2600-core/src/scheduler.rs:116-133 | Within one power-on no two chunks, the A/X/Y word included, are equal. |
| StatusRegister.StatusSurvivesStack | crates/rusty2600-cpu/src/cpu.rs:601-629 | A status byte pushed and pulled comes back but for BREAK dropped and UNUSED set; the byte form loses nothing. |
| SystemState.SpinEnds | crates/rusty2600-cpu/src/cpu.rs:165-172 | The RDY spin ends within a scanline, advances the clocks in step and changes no history but the stall count. |
| SystemState.IdleTickWaits | crates/rusty2600-cpu/src/cpu.rs:165-172 | One cycle is one unstalled tick plus at most 76 stalled ones, and leaves RDY released. |
| SystemState.TickAdvances | crates/rusty2600-core/src/scheduler.rs:61-70 | A tick moves the color clock counter by exactly three, wrap-around included. |
| AluTheorems.BinaryOverflow | crates/rusty2600-cpu/src/cpu.rs:1856-1865 | Binary ADC: V is set exactly when the signed sum does not fit, A is then that sum otherwise, and carry and A together are the exact unsigned sum. |
| AluTheorems.BinaryDifference | crates/rusty2600-cpu/src/cpu.rs:1894-1897 | Binary SBC through the complement: likewise for the signed difference and the borrow. |
| AluTheorems.DecimalSum | crates/rusty2600-cpu/src/cpu.rs:1820-1855 | Decimal ADC of valid digits gives valid digits and the exact decimal sum with its carry. |
| AluTheorems.DecimalDifference | crates/rusty2600-cpu/src/cpu.rs:1868-1893 | Decimal SBC of valid digits gives valid digits and the exact decimal difference with its borrow. |
| AluTheorems.SumExact | crates/rusty2600-cpu/src/cpu.rs:1819-1866 | A chain of ADCs over any number of bytes is exact addition modulo 100^n or 256^n, carry out included. |
| AluTheorems.DifferenceExact | crates/rusty2600-cpu/src/cpu.rs:1867-1898 | A chain of SBCs over any number of bytes is exact subtraction, borrow out included. |
| AluTheorems.ValueInjective | crates/rusty2600-cpu/src/cpu.rs:1819-1898 | A number has one byte string of each length, in decimal as in binary. |
| AluTheorems.DifferenceUndoesSum | crates/rusty2600-cpu/src/cpu.rs:1819-1898 | SBC undoes ADC over any number of bytes, and its borrow is the addition's carry. |
| AluTheorems.RolDoubles | crates/rusty2600-cpu/src/cpu.rs:1956-1963 | ROL over any number of bytes doubles the number exactly, carry in and carry out included. |
| AluTheorems.RotatesUndo | crates/rusty2600-cpu/src/cpu.rs:1956-1978 | ROR undoes ROL and ROL undoes ROR, the carry restored. |
| AluTheorems.ArrCarryExactness | crates/rusty2600-cpu/src/cpu.rs:1643-1676 | Decimal ARR's carry is that of the exact sum if and only if the masked accumulator is below $F0. |
| AluTheorems.ArrLostCarry | crates/rusty2600-cpu/src/cpu.rs:1643-1676 | With $F0 in the accumulator and operand $FF the exact sum is above the limit and the carry is clear. |
| CycleExactness.DecodeWellFormed | crates/rusty2600-cpu/src/cpu.rs:365-1771 | No opcode decodes to a store or read-modify-write of an immediate. |
| CycleExactness.ExecTakesItsCycles | crates/rusty2600-cpu/src/cpu.rs:365-1771 | Every decoded instruction makes one bus access per cycle of the table, page crosses and taken branches included. |
| CycleExactness.StepIsCycleExact | crates/rusty2600-cpu/src/cpu.rs:90-104 | For every state, bus and opcode, a step makes as many accesses as the cycles it returns, emits that many, writes as often as its opcode says, and its padding loop never runs. |
| BusPatterns.ModifyPattern | crates/rusty2600-cpu/src/cpu.rs:1905-2058 | Every read-modify-write reads its address, writes the old byte back, then writes the new one. |
| BusPatterns.InstructionWrites | crates/rusty2600-cpu/src/cpu.rs:365-1771 | The number of bus writes an instruction makes depends on its opcode alone: none for loads, branches and pulls, two for read-modify-writes and JSR, three for BRK. |
| BusPatterns.CallPattern | crates/rusty2600-cpu/src/cpu.rs:1186-1211 | JSR pushes the address of its own last byte, high then low, before it fetches that byte. |
| BusPatterns.ReturnPattern | crates/rusty2600-cpu/src/cpu.rs:1212-1228 | RTS makes two dummy reads, pulls low then high, and reads the return address before stepping past it. |
| BusPatterns.ReturnUndoesCall | crates/rusty2600-cpu/src/cpu.rs:1186-1228 | RTS reads the very addresses its JSR wrote, resumes right after it and restores S, stack wrap-around included. |
| CallsOnRam.StackBytesInRam | crates/rusty2600-core/src/bus.rs:129-206 | The two bytes a call pushes are in RIOT RAM exactly for a stack pointer of $80 up, and of $81 up or 0. |
| CallsOnRam.PulledBytes | crates/rusty2600-core/src/bus.rs:129-206 | With RIOT RAM remembering what was written, and whatever the subroutine does elsewhere, a return pulls exactly the pushed byte wherever it went to RAM. |
| CallsOnRam.ReturnOnRam | crates/rusty2600-cpu/src/cpu.rs:1186-1228 | For every stack pointer: RTS resumes after its JSR if and only if each pushed byte that did not go to RIOT RAM happens to be answered; from $81 up it always does. |
| OpcodeTable.EveryOpcodeIsListed | crates/rusty2600-cpu/src/cpu.rs:365-1771 | The dispatch sections cover all 256 opcodes. |
| SchedulerBus.CpuView.TickColorClock | crates/rusty2600-tia/src/lib.rs:401-416 | The beam advances, wraps at 228 and releases RDY there. |
| SchedulerBus.CpuView.TickCycle | crates/rusty2600-core/src/scheduler.rs:61-70 | Three color clocks, and three on the counter. |
| SchedulerBus.CpuView.Write | crates/rusty2600-core/src/bus.rs:165-206 | A write reaching WSYNC holds RDY except at the line boundary, one reaching RSYNC restarts the line. |
| Cpu6507.DummyAtFinalAddress | crates/rusty2600-cpu/src/cpu.rs:485-536 | Without a page cross the extra read an indexed store makes at its final address is the unconditional dummy read. |
| Cpu6507.Cpu.IdleTick | crates/rusty2600-cpu/src/cpu.rs:165-172 | Spins while RDY is held, then ticks once and counts the cycle. |
| Cpu6507.Cpu.Read1 | crates/rusty2600-cpu/src/cpu.rs:179-182 | One cycle, then the access: the reference read. |
| Cpu6507.Cpu.Write1 | crates/rusty2600-cpu/src/cpu.rs:184-187 | One cycle, then the access: the reference write. |
| Cpu6507.Cpu.FetchPc | crates/rusty2600-cpu/src/cpu.rs:114-118 | Reads at PC and steps it, wrapping. |
| Cpu6507.Cpu.ReadU16WithWrap | crates/rusty2600-cpu/src/cpu.rs:126-131 | The second byte of a pointer wraps within its page. |
| Cpu6507.Cpu.Push | crates/rusty2600-cpu/src/cpu.rs:133-136 | Writes in the stack page, then steps S down with wrap-around. |
| Cpu6507.Cpu.Pull | crates/rusty2600-cpu/src/cpu.rs:138-141 | Steps S up with wrap-around, then reads. |
| Cpu6507.Cpu.ShStore | crates/rusty2600-cpu/src/cpu.rs:189-206 | The unstable stores: value ANDed with the unfixed high byte plus one, which becomes the page when the index carries. |
| Cpu6507.Cpu.AddrZpX | crates/rusty2600-cpu/src/cpu.rs:214-229 | Dummy read at the unindexed address, index wrapping in the zero page. |
| Cpu6507.Cpu.AddrAbsX | crates/rusty2600-cpu/src/cpu.rs:248-265 | Dummy read at the unfixed address exactly on a page cross, which is reported. |
| Cpu6507.Cpu.AddrAbsY | crates/rusty2600-cpu/src/cpu.rs:267-277 | Likewise for Y. |
| Cpu6507.Cpu.AddrAbsXRmw | crates/rusty2600-cpu/src/cpu.rs:288-294 | The dummy read is unconditional. |
| Cpu6507.Cpu.AddrAbsYRmw | crates/rusty2600-cpu/src/cpu.rs:296-302 | The dummy read is unconditional. |
| Cpu6507.Cpu.AddrIndX | crates/rusty2600-cpu/src/cpu.rs:304-316 | Pointer indexed and read inside the zero page. |
| Cpu6507.Cpu.AddrIndY | crates/rusty2600-cpu/src/cpu.rs:318-334 | Pointer read inside the zero page, then indexed with the dummy read exactly on a page cross. |
| Cpu6507.Cpu.AddrIndYRmw | crates/rusty2600-cpu/src/cpu.rs:339-348 | The dummy read is unconditional. |
| Cpu6507.Cpu.Adc | crates/rusty2600-cpu/src/cpu.rs:1819-1866 | Flag by flag, the reference addition whose exactness is proved over any number of bytes. |
| Cpu6507.Cpu.Sbc | crates/rusty2600-cpu/src/cpu.rs:1867-1898 | Flag by flag, the reference subtraction. |
| Cpu6507.Cpu.CmpWith | crates/rusty2600-cpu/src/cpu.rs:1899-1903 | Carry is "not below", N and Z are those of the wrapped difference. |
| Cpu6507.Cpu.Branch | crates/rusty2600-cpu/src/cpu.rs:1986-2001 | Target, dummy reads and 2, 3 or 4 cycles by taken and page cross. |
| Cpu6507.Cpu.Arr | crates/rusty2600-cpu/src/cpu.rs:1643-1676 | The rotate with its decimal correction, in byte arithmetic. |
| Cpu6507.Cpu.IscAddr | crates/rusty2600-cpu/src/cpu.rs:2017-2024 | Read, write back, write incremented, subtract: the reference read-modify-write; its siblings are stated the same way. |
| Cpu6507.Cpu.RraAddr | crates/rusty2600-cpu/src/cpu.rs:2052-2058 | Read, write back, write rotated, add with the carry the rotate left. |
| Cpu6507.Cpu.Jsr | crates/rusty2600-cpu/src/cpu.rs:1186-1211 | The reference call, high target byte fetched after the pushes. |
| Cpu6507.Cpu.Brk | crates/rusty2600-cpu/src/cpu.rs:1244-1256 | PC plus one and the status with BREAK pushed, interrupts disabled, vector read. |
| Cpu6507.Cpu.JamUp | crates/rusty2600-cpu/src/cpu.rs:1759-1769 | The eleven-cycle window of a jam, after which the CPU is jammed. |
| Cpu6507.Cpu.LoadsA | crates/rusty2600-cpu/src/cpu.rs:368-407 | The 8 arms for LDA do what the bit fields decode to, access by access and flag by flag, in the cycles of the table. |
| Cpu6507.Cpu.LoadsX | crates/rusty2600-cpu/src/cpu.rs:409-437 | The 5 arms for LDX do what the bit fields decode to, access by access and flag by flag, in the cycles of the table. |
| Cpu6507.Cpu.LoadsY | crates/rusty2600-cpu/src/cpu.rs:439-467 | The 5 arms for LDY do what the bit fields decode to, access by access and flag by flag, in the cycles of the table. |
| Cpu6507.Cpu.StoresA | crates/rusty2600-cpu/src/cpu.rs:470-523 | The 4 unindexed and zero-page arms for STA do what the bit fields decode to, access by access and flag by flag, in the cycles of the table. |
| Cpu6507.Cpu.StoresAIndexed | crates/rusty2600-cpu/src/cpu.rs:485-523 | The 3 arms for STA through a 16-bit index do what the bit fields decode to, their dummy read spent whether or not the page is crossed. |
| Cpu6507.Cpu.StoresXY | crates/rusty2600-cpu/src/cpu.rs:525-555 | The 6 arms for STX, STY do what the bit fields decode to, access by access and flag by flag, in the cycles of the table. |
| Cpu6507.Cpu.Transfers | crates/rusty2600-cpu/src/cpu.rs:558-592 | The 6 arms for TAX, TAY, TSX, TXA, TXS, TYA do what the bit fields decode to, access by access and flag by flag, in the cycles of the table. |
| Cpu6507.Cpu.StackOps | crates/rusty2600-cpu/src/cpu.rs:595-629 | The 4 arms for PHA, PHP, PLA, PLP do what the bit fields decode to, access by access and flag by flag, in the cycles of the table. |
| Cpu6507.Cpu.Ands | crates/rusty2600-cpu/src/cpu.rs:632-678 | The 8 arms for AND do what the bit fields decode to, access by access and flag by flag, in the cycles of the table. |
| Cpu6507.Cpu.Ors | crates/rusty2600-cpu/src/cpu.rs:680-726 | The 8 arms for ORA do what the bit fields decode to, access by access and flag by flag, in the cycles of the table. |
| Cpu6507.Cpu.Xors | crates/rusty2600-cpu/src/cpu.rs:728-774 | The 8 arms for EOR do what the bit fields decode to, access by access and flag by flag, in the cycles of the table. |
| Cpu6507.Cpu.Bits | crates/rusty2600-cpu/src/cpu.rs:776-787 | The 2 arms for BIT do what the bit fields decode to, access by access and flag by flag, in the cycles of the table. |
| Cpu6507.Cpu.Additions | crates/rusty2600-cpu/src/cpu.rs:790-836 | The 8 arms for ADC do what the bit fields decode to, access by access and flag by flag, in the cycles of the table. |
| Cpu6507.Cpu.Subtractions | crates/rusty2600-cpu/src/cpu.rs:838-884 | The 9 arms for SBC do what the bit fields decode to, access by access and flag by flag, in the cycles of the table. |
| Cpu6507.Cpu.ComparesA | crates/rusty2600-cpu/src/cpu.rs:887-933 | The 8 arms for CMP do what the bit fields decode to, access by access and flag by flag, in the cycles of the table. |
| Cpu6507.Cpu.ComparesX | crates/rusty2600-cpu/src/cpu.rs:935-951 | The 3 arms for CPX do what the bit fields decode to, access by access and flag by flag, in the cycles of the table. |
| Cpu6507.Cpu.ComparesY | crates/rusty2600-cpu/src/cpu.rs:953-969 | The 3 arms for CPY do what the bit fields decode to, access by access and flag by flag, in the cycles of the table. |
| Cpu6507.Cpu.MemoryCounts | crates/rusty2600-cpu/src/cpu.rs:972-1011 | The 8 arms for INC, DEC do what the bit fields decode to, access by access and flag by flag, in the cycles of the table. |
| Cpu6507.Cpu.RegisterCounts | crates/rusty2600-cpu/src/cpu.rs:1012-1035 | The 4 arms for INX, DEX, INY, DEY do what the bit fields decode to, access by access and flag by flag, in the cycles of the table. |
| Cpu6507.Cpu.ShiftsLeft | crates/rusty2600-cpu/src/cpu.rs:1038-1062 | The 5 arms for ASL A, ASL do what the bit fields decode to, access by access and flag by flag, in the cycles of the table. |
| Cpu6507.Cpu.ShiftsRight | crates/rusty2600-cpu/src/cpu.rs:1064-1088 | The 5 arms for LSR A, LSR do what the bit fields decode to, access by access and flag by flag, in the cycles of the table. |
| Cpu6507.Cpu.RotatesLeft | crates/rusty2600-cpu/src/cpu.rs:1090-1114 | The 5 arms for ROL A, ROL do what the bit fields decode to, access by access and flag by flag, in the cycles of the table. |
| Cpu6507.Cpu.RotatesRight | crates/rusty2600-cpu/src/cpu.rs:1116-1140 | The 5 arms for ROR A, ROR do what the bit fields decode to, access by access and flag by flag, in the cycles of the table. |
| Cpu6507.Cpu.Branches | crates/rusty2600-cpu/src/cpu.rs:1143-1174 | The 8 arms for branches do what the bit fields decode to, access by access and flag by flag, in the cycles of the table. |
| Cpu6507.Cpu.Jumps | crates/rusty2600-cpu/src/cpu.rs:1177-1211 | The 3 arms for JMP, JMP indirect, JSR do what the bit fields decode to, access by access and flag by flag, in the cycles of the table. |
| Cpu6507.Cpu.Returns | crates/rusty2600-cpu/src/cpu.rs:1212-1260 | The 4 arms for RTS, RTI, BRK, NOP do what the bit fields decode to, access by access and flag by flag, in the cycles of the table. |
| Cpu6507.Cpu.FlagsCI | crates/rusty2600-cpu/src/cpu.rs:1263-1282 | The 4 arms for CLC, SEC, CLI, SEI do what the bit fields decode to, access by access and flag by flag, in the cycles of the table. |
| Cpu6507.Cpu.FlagsVD | crates/rusty2600-cpu/src/cpu.rs:1283-1297 | The 3 arms for CLV, CLD, SED do what the bit fields decode to, access by access and flag by flag, in the cycles of the table. |
| Cpu6507.Cpu.ShortNops | crates/rusty2600-cpu/src/cpu.rs:1301-1309 | The 11 arms for NOP do what the bit fields decode to, access by access and flag by flag, in the cycles of the table. |
| Cpu6507.Cpu.MemoryNops | crates/rusty2600-cpu/src/cpu.rs:1310-1332 | The 16 arms for NOP do what the bit fields decode to, access by access and flag by flag, in the cycles of the table. |
| Cpu6507.Cpu.LoadsAX | crates/rusty2600-cpu/src/cpu.rs:1335-1352 | The 3 arms for LAX do what the bit fields decode to, access by access and flag by flag, in the cycles of the table. |
| Cpu6507.Cpu.LoadsAXIndexed | crates/rusty2600-cpu/src/cpu.rs:1353-1370 | The 3 arms for LAX do what the bit fields decode to, access by access and flag by flag, in the cycles of the table. |
| Cpu6507.Cpu.LoadsLXA | crates/rusty2600-cpu/src/cpu.rs:1371-1381 | The 1 arm for LXA does what the bit fields decode to, access by access and flag by flag, in the cycles of the table. |
| Cpu6507.Cpu.StoresAX | crates/rusty2600-cpu/src/cpu.rs:1383-1402 | The 4 arms for SAX do what the bit fields decode to, access by access and flag by flag, in the cycles of the table. |
| Cpu6507.Cpu.DcpOps | crates/rusty2600-cpu/src/cpu.rs:1405-1439 | The 7 arms for DCP do what the bit fields decode to, access by access and flag by flag, in the cycles of the table. |
| Cpu6507.Cpu.IscOps | crates/rusty2600-cpu/src/cpu.rs:1442-1476 | The 7 arms for ISC do what the bit fields decode to, access by access and flag by flag, in the cycles of the table. |
| Cpu6507.Cpu.SloOps | crates/rusty2600-cpu/src/cpu.rs:1479-1513 | The 7 arms for SLO do what the bit fields decode to, access by access and flag by flag, in the cycles of the table. |
| Cpu6507.Cpu.RlaOps | crates/rusty2600-cpu/src/cpu.rs:1516-1550 | The 7 arms for RLA do what the bit fields decode to, access by access and flag by flag, in the cycles of the table. |
| Cpu6507.Cpu.SreOps | crates/rusty2600-cpu/src/cpu.rs:1553-1587 | The 7 arms for SRE do what the bit fields decode to, access by access and flag by flag, in the cycles of the table. |
| Cpu6507.Cpu.RraOps | crates/rusty2600-cpu/src/cpu.rs:1590-1624 | The 7 arms for RRA do what the bit fields decode to, access by access and flag by flag, in the cycles of the table. |
| Cpu6507.Cpu.Ancs | crates/rusty2600-cpu/src/cpu.rs:1627-1633 | The 2 arms for ANC do what the bit fields decode to, access by access and flag by flag, in the cycles of the table. |
| Cpu6507.Cpu.Alrs | crates/rusty2600-cpu/src/cpu.rs:1634-1642 | The 1 arm for ALR does what the bit fields decode to, access by access and flag by flag, in the cycles of the table. |
| Cpu6507.Cpu.Arrs | crates/rusty2600-cpu/src/cpu.rs:1643-1676 | The 1 arm for ARR does what the bit fields decode to, access by access and flag by flag, in the cycles of the table. |
| Cpu6507.Cpu.ImmediatesX | crates/rusty2600-cpu/src/cpu.rs:1677-1685 | The 1 arm for AXS does what the bit fields decode to, access by access and flag by flag, in the cycles of the table. |
| Cpu6507.Cpu.Xaas | crates/rusty2600-cpu/src/cpu.rs:1688-1699 | The 1 arm for XAA does what the bit fields decode to, access by access and flag by flag, in the cycles of the table. |
| Cpu6507.Cpu.Lass | crates/rusty2600-cpu/src/cpu.rs:1700-1709 | The 1 arm for LAS does what the bit fields decode to, access by access and flag by flag, in the cycles of the table. |
| Cpu6507.Cpu.UnstableStores | crates/rusty2600-cpu/src/cpu.rs:1710-1733 | The 3 arms for TAS, SHA do what the bit fields decode to, access by access and flag by flag, in the cycles of the table. |
| Cpu6507.Cpu.UnstableIndexStores | crates/rusty2600-cpu/src/cpu.rs:1734-1745 | The 2 arms for SHX, SHY do what the bit fields decode to, access by access and flag by flag, in the cycles of the table. |
| Cpu6507.Cpu.Jams | crates/rusty2600-cpu/src/cpu.rs:1759-1769 | The 12 arms for JAM do what the bit fields decode to, access by access and flag by flag, in the cycles of the table. |
| Cpu6507.Cpu.Dispatch | crates/rusty2600-cpu/src/cpu.rs:365-1771 | All 256 arms do what the opcode's bit fields decode to, in the cycles of the table. |
| Cpu6507.Cpu.Step | crates/rusty2600-cpu/src/cpu.rs:90-104 | One instruction, padding loop included, is the reference step; a jammed CPU does nothing. |
| Cpu6507.Cpu.Reset | crates/rusty2600-cpu/src/cpu.rs:61-73 | Six idle cycles and two vector reads, S down by three, interrupts disabled, jam cleared. |
| Scheduler.ResetElapses | crates/rusty2600-cpu/src/cpu.rs:61-73 | A reset takes eight unstalled cycles, two of them accesses. |
| Scheduler.RunElapses | crates/rusty2600-core/src/scheduler.rs:146-179 | Over every run of resets, instructions and lone color clocks: unstalled cycles are eight per reset plus the counts returned, accesses two per reset plus those, stalls at most 76 per cycle. |
| Scheduler.Lockstep | crates/rusty2600-core/src/scheduler.rs:61-179 | From power-on, color clocks are the lone ones plus three per tick and CPU cycles are ticks minus stalls, both modulo 2^64. |
| Scheduler.PhaseIsKept | crates/rusty2600-core/src/scheduler.rs:135-170 | One reset then instructions: color clocks are phase plus three per tick, so congruent to the seed's phase, and CPU cycles are 8 plus the counts returned. |
| Scheduler.StallEndsAtLineStart | crates/rusty2600-cpu/src/cpu.rs:165-172 | A stall's length in closed form: RDY is released within the first three clocks of the next line. |
| Scheduler.NextCycleAfterWsync | crates/rusty2600-tia/src/lib.rs:258-279 | After a WSYNC write the next cycle ends at clocks 3 to 5 of the following line; a write at the line boundary costs no stall. |
| Scheduler.BoardCountsCycles | crates/rusty2600-cart/src/lib.rs:3688-3693 | Over every run of the system, the access count a Supercharger keeps is the CPU's cycle count less six idle cycles per reset, modulo 2^32, stalls excluded from both. |
| Scheduler.System.constructor | crates/rusty2600-core/src/scheduler.rs:116-141 | RAM, A, X, Y and the phase are the seed's; no time has passed. |
| Scheduler.System.ResetSystem | crates/rusty2600-core/src/scheduler.rs:146-156 | The phase's color clocks, then the CPU reset. |
| Scheduler.System.StepInstruction | crates/rusty2600-core/src/scheduler.rs:164-170 | One instruction of the reference on the whole system. |
| Scheduler.System.TickOneColorClock | crates/rusty2600-core/src/scheduler.rs:176-179 | One color clock of beam and counter. |
| DelayedWrite.CounterCountsAccesses | crates/rusty2600-cart/src/lib.rs:3688-3693 | The board's counter is the number of bus accesses modulo 2^32, whichever hooks they reach. |
| DelayedWrite.WindowExactness | crates/rusty2600-cart/src/lib.rs:3688-3693 | A pending write is dropped by the sixth access after its hold and by none before if and only if the hold count is outside 2^32-6 .. 2^32-2. |
| DelayedWrite.PendingMeans | crates/rusty2600-cart/src/lib.rs:3688-3724 | Over every history a pending write was armed by the last access that latched, which is still within the wrapped limit, with no reconfiguration since. |
| DelayedWrite.StaysPending | crates/rusty2600-cart/src/lib.rs:3688-3724 | With writes enabled and no $1FF8 access, a write within the wrapped limit and not yet due is pending, its address held. |
| DelayedWrite.StoresExactly | crates/rusty2600-cart/src/lib.rs:3688-3724 | Over every history of any length, a cartridge access stores if and only if the last access to latch came five before it modulo 2^32, within the wrapped limit and not used up, with no $1FF8 since, writing enabled and the window RAM; the byte is the arming address's low byte. |
| DelayedWrite.DelayedWriteExactly | crates/rusty2600-cart/src/lib.rs:3688-3724 | The intended rule, the access exactly five before armed the write, decides a store if and only if that write was not latched at 2^32-5 .. 2^32-2 and no write latched at 2^32-6 is overdue. |
| DelayedWrite.DelayedWriteWhenSafe | crates/rusty2600-cart/src/lib.rs:3688-3724 | On histories that never latch at those five counts the intended rule is what happens. |
| DelayedWrite.ShortRunsAreSafe | crates/rusty2600-cart/src/lib.rs:3688-3693 | Histories shorter than 2^32-6 never do. |
| DelayedWrite.LostWrite | crates/rusty2600-cart/src/lib.rs:3688-3724 | For each of the four counts a history from reset reaches an access five after an arming, writes enabled, that stores nothing. |
| DelayedWrite.NeverDropped | crates/rusty2600-cart/src/lib.rs:3688-3693 | A write latched at 2^32-6 is still pending after any number of idle accesses. |
| DelayedWrite.LateWrite | crates/rusty2600-cart/src/lib.rs:3688-3724 | A history in which such a write is stored 2^32+5 accesses after it was armed. |
| SuperchargerTheorems.ImageChangesOnlyByDelayedWrite | crates/rusty2600-core/src/bus.rs:129-206 | Over every run through the bus from a fresh board, outside loads the image changes only by a store that is due, in that one byte. |
| SuperchargerTheorems.LoadFillsPages | crates/rusty2600-cart/src/lib.rs:3740-3794 | After the read that triggers a load, each page holds the last source page mapped to it among the first min(count, 24) of the first load with the staged number, or is unchanged; the triggering read itself stores nothing. |
| SuperchargerTheorems.FindLoadIsFirst | crates/rusty2600-cart/src/lib.rs:3740-3747 | The load taken is the first carrying the number, and none is taken only if none carries it. |
| SuperchargerTheorems.RomIsNeverModified | crates/rusty2600-cart/src/lib.rs:3698-3796 | Over every run the BIOS bank and the tape image are unchanged and no poke stays staged. |
| SuperchargerTheorems.LoadReachesRiot | crates/rusty2600-core/src/bus.rs:213-219 | A triggered load's bank byte and start address are in RIOT RAM at $FE, $FF and $80 when the access ends. |
| Supercharger.IndexInRange | crates/rusty2600-cart/src/lib.rs:3668-3671 | Every image index is below 8 KiB, and below 6 KiB when the window is RAM. |
| SuperchargerBoard.BankAr.constructor | crates/rusty2600-cart/src/lib.rs:3594-3666 | A fresh board: zero RAM, the patched BIOS stub with its vectors in place, configuration 0. |
| SuperchargerBoard.BankAr.BankConfiguration | crates/rusty2600-cart/src/lib.rs:3676-3682 | The five configuration bits select the two windows, write enable and power. |
| SuperchargerBoard.BankAr.NoteAccess | crates/rusty2600-cart/src/lib.rs:3688-3693 | Counts the access and drops a stale pending write. |
| SuperchargerBoard.BankAr.HandleHotspot | crates/rusty2600-cart/src/lib.rs:3698-3725 | Latch, reconfigure or commit, in that order of preference; reports a committed store. |
| SuperchargerBoard.BankAr.LoadIntoRam | crates/rusty2600-cart/src/lib.rs:3740-3770 | The nested loops copy the mapped pages of the first matching load and stage its three pokes. |
| SuperchargerBoard.BankAr.CpuRead | crates/rusty2600-cart/src/lib.rs:3778-3794 | Count, load if triggered, hotspot, then read under the new mapping. |
| SuperchargerBoard.BankAr.CpuWrite | crates/rusty2600-cart/src/lib.rs:3796-3799 | Count and hotspot; the written value is ignored. |
| SuperchargerBoard.BankAr.SnoopRead | crates/rusty2600-cart/src/lib.rs:3805-3810 | Counts the access and remembers the byte at $0080. |
| SuperchargerBoard.BankAr.SnoopWrite | crates/rusty2600-cart/src/lib.rs:3812-3822 | Counts the access and remembers the byte at $0080. |
| SuperchargerBoard.Bus.CpuRead | crates/rusty2600-core/src/bus.rs:129-163 | Each read reaches exactly one hook, pokes are applied at once, and the bus keeps the value. |
| SuperchargerBoard.Bus.CpuWrite | crates/rusty2600-core/src/bus.rs:165-206 | Each write reaches exactly one hook, and RIOT RAM when addressed. |
| SuperchargerBoard.Bus.ApplyOobPokes | crates/rusty2600-core/src/bus.rs:213-219 | The staged pokes are applied in order and none is left. |
| Dpc.CounterTracksReads | crates/rusty2600-cart/src/lib.rs:1751-1860 | A non-music fetcher's 16-bit counter has gone down by one for each register read naming it, whatever else was accessed, unless its counter bytes were written. |
| Dpc.DisplayStream | crates/rusty2600-cart/src/lib.rs:1774-1828 | The next display read, any accesses interleaved, is display byte (2047 - c0 + r) mod 2048 after r such reads. |
| Dpc.FlagTracksReads | crates/rusty2600-cart/src/lib.rs:1764-1842 | Over every history that leaves the fetcher's registers alone: its low byte, and its flag, unmoved until top or bottom is met and then set exactly if top was met no longer ago than bottom. |
| Dpc.WindowedStream | crates/rusty2600-cart/src/lib.rs:1764-1828 | The next windowed read, any accesses interleaved, is the streamed display byte exactly when that flag is set, else 0. |
| Dpc.NoiseCountsAccesses | crates/rusty2600-cart/src/lib.rs:1742-1746 | The noise register is the n-th iterate of 1 for n accesses since the start or the last reset write. |
| Dpc.NeverLocksUp | crates/rusty2600-cart/src/lib.rs:1742-1746 | From any other value the lock-up value $FF is never reached. |
| Dpc.FullPeriod | crates/rusty2600-cart/src/lib.rs:1742-1746 | Two counts of clocks give the same noise if and only if they agree modulo 255. |
| DpcBoard.BankDpc.constructor | crates/rusty2600-cart/src/lib.rs:1706-1725 | The first 10 KiB become program and display; bank 1, noise 1. |
| DpcBoard.BankDpc.ClockRng | crates/rusty2600-cart/src/lib.rs:1742-1746 | One clock of the shift register and nothing else. |
| DpcBoard.BankDpc.FetcherClock | crates/rusty2600-cart/src/lib.rs:1751-1759 | The borrow into the high byte, and the music reload. |
| DpcBoard.BankDpc.CpuRead | crates/rusty2600-cart/src/lib.rs:1781-1828 | The whole read: hotspot, noise clock, flag, answer, counter. |
| DpcBoard.BankDpc.CpuWrite | crates/rusty2600-cart/src/lib.rs:1830-1861 | The whole write, music-mode reload of the low byte included. |
| DpcPlusTheorems.StackRoundTrip | crates/rusty2600-cart/src/lib.rs:2233-2313 | Any number of pushes then as many reads: the bytes reversed, the newest winning where more than 4096 share an address; the pointer and every other register restored. |
| DpcPlusTheorems.QueueRoundTrip | crates/rusty2600-cart/src/lib.rs:2233-2334 | Any number of writes, the pointer put back, as many reads: the bytes in order, the newest winning past 4096. |
| DpcPlusTheorems.WindowStream | crates/rusty2600-cart/src/lib.rs:1898-1902 | n windowed reads advance the pointer by n and give exactly the bytes whose pointer's low byte lies inside the wrapped window, 0 for the others. |
| DpcPlusTheorems.CopiedExactly | crates/rusty2600-cart/src/lib.rs:2149-2172 | The copy service changes exactly the addresses it reaches, to the data ROM bytes that exist. |
| DpcPlusTheorems.FilledExactly | crates/rusty2600-cart/src/lib.rs:2173-2202 | The fill service sets exactly the addresses of its steps, both pointer bytes advancing. |
| DpcPlusTheorems.FastFetchRedirects | crates/rusty2600-cart/src/lib.rs:2436-2455 | After the opcode byte $A9, whatever was pending before it, the next ROM byte below $28 is answered by the register it names, any other by itself. |
| DpcPlusTheorems.RewoundIs | crates/rusty2600-cart/src/lib.rs:2296-2334 | Writing through a fetcher and putting its pointer bytes back leaves nothing changed but the data. |
| DpcPlusTheorems.IncIsPlusOne | crates/rusty2600-cart/src/lib.rs:1879-1884 | The byte-wise carry is plus one on the 16-bit pointer. |
| DpcPlusTheorems.DecIsMinusOne | crates/rusty2600-cart/src/lib.rs:1886-1891 | The byte-wise borrow is minus one on the 16-bit pointer. |
| DpcPlusTheorems.FractionalClosedForm | crates/rusty2600-cart/src/lib.rs:1922-1932 | After n reads the 12-bit pointer has advanced by the whole part of count + n * increment, the count is its remainder. |
| DpcPlusTheorems.FractionalStream | crates/rusty2600-cart/src/lib.rs:2256-2265 | The k-th fractional read is the byte at that pointer. |
| DpcPlusTheorems.NextIsBijection | crates/rusty2600-cart/src/lib.rs:1964-1971 | A noise step is a bijection on all 2^32 states, its inverse given. |
| DpcPlusTheorems.PrevUndoesNextExactly | crates/rusty2600-cart/src/lib.rs:1973-1981 | The back step undoes the forward step if and only if bit 10 was clear. |
| DpcPlusTheorems.NextUndoesPrevExactly | crates/rusty2600-cart/src/lib.rs:1964-1981 | The forward step undoes the back step if and only if bit 31 was clear. |
| DpcPlusTheorems.PrevRecoversLowBits | crates/rusty2600-cart/src/lib.rs:1973-1981 | Even where it fails, the low eleven bits come back. |
| DpcPlusTheorems.PrevCounterexample | crates/rusty2600-cart/src/lib.rs:1973-1981 | State $400 is not stepped back to. |
| DpcPlusTheorems.MusicClosedForm | crates/rusty2600-cart/src/lib.rs:2483-2491 | After n CPU cycles each music phase has advanced by its frequency once per 59, modulo 2^32. |
| DpcPlusBoard.BankDpcPlus.ReadRegister | crates/rusty2600-cart/src/lib.rs:2208-2276 | Every read register: value and state change of the reference. |
| DpcPlusBoard.BankDpcPlus.WriteRegister | crates/rusty2600-cart/src/lib.rs:2278-2336 | Every register write, $59 and $5A included: the reference's new state. |
| DpcPlusBoard.BankDpcPlus.DispatchFunctionCall | crates/rusty2600-cart/src/lib.rs:2146-2206 | Every service code: clear, copy, fill, the ARM, or nothing. |
| DpcPlusBoard.BankDpcPlus.CpuRead | crates/rusty2600-cart/src/lib.rs:2436-2455 | Bank hotspot, register window, ROM byte or FastFetch redirect, as the reference. |
| DpcPlusBoard.BankDpcPlus.CpuWrite | crates/rusty2600-cart/src/lib.rs:2457-2469 | Bank hotspot, parameter byte, service call or register write, as the reference, for every address and value. |
| DpcPlusBoard.BankDpcPlus.constructor | crates/rusty2600-cart/src/lib.rs:2067-2105 | The image split into driver, banks, data and frequencies, RAM copies and registers at power-on. |
| DpcPlusBoard.BankDpcPlus.Tick | crates/rusty2600-cart/src/lib.rs:2483-2491 | Every 59th cycle advances the three music phases. |
| CdfTheorems.PointerUpdateIsLocal | crates/rusty2600-cart/src/lib.rs:2919-2946 | In all four versions a pointer update is seen by its own stream and disturbs no other pointer, no increment and no music base. |
| CdfTheorems.PointersAdvanceAlone | crates/rusty2600-cart/src/lib.rs:2952-2960 | Under any interleaving of stream reads, a stream's pointer depends only on its own reads. |
| CdfTheorems.StreamClosedForm | crates/rusty2600-cart/src/lib.rs:2952-2960 | Every stream read in closed form: the byte at pointer + k * (increment shifted), modulo 2^32. |
| CdfTheorems.PointerIsSelected | crates/rusty2600-cart/src/lib.rs:3330-3339 | High then low byte through DSPTR select (hi & 15) * 256 + lo, whatever the pointer was. |
| CdfTheorems.CommunicationRoundTrip | crates/rusty2600-cart/src/lib.rs:3320-3340 | CDF0, CDF1, CDFJ: set, write, set, read gives the bytes in order, the newest winning past 4096, the rest of memory unchanged. |
| CdfTheorems.CommunicationRoundTripPlus | crates/rusty2600-cart/src/lib.rs:3320-3340 | CDFJ+, any bytes from any address: those below 30 KiB are stored and come back, those beyond read as 0 until the pointer wraps; all come back if and only if each one beyond equals what is read there. |
| CdfTheorems.RoundTripPlusExactly | crates/rusty2600-cart/src/lib.rs:3320-3340 | Up to the wrap, the bytes come back if and only if those past the end of the data are all zero. |
| CdfTheorems.LostByte | crates/rusty2600-cart/src/lib.rs:3321-3327 | A non-zero byte written just past the end reads back as 0. |
| CdfTheorems.WritePastEndIsDropped | crates/rusty2600-cart/src/lib.rs:3321-3327 | CDFJ+: a write changes nothing, the pointer included, if and only if it is past the end of the data. |
| CdfTheorems.OperandInTime | crates/rusty2600-cart/src/lib.rs:3251-3302 | After a read of $A9 that no redirect answers, whatever was armed before it, an operand naming a stream is answered by that stream, whose pointer advances, exactly when it is read within one cycle; later it is a plain byte. |
| CdfBoard.BankCdf.WriteU32 | crates/rusty2600-cart/src/lib.rs:2750-2754 | Four little-endian bytes in place, or nothing when out of range. |
| CdfBoard.BankCdf.StreamData | crates/rusty2600-cart/src/lib.rs:2952-2960 | Byte at the pointer, then the pointer advanced by the shifted increment. |
| CdfBoard.BankCdf.DsWrite | crates/rusty2600-cart/src/lib.rs:3320-3329 | The byte stored and the pointer stepped, or nothing when out of range. |
| CdfBoard.BankCdf.DsPtr | crates/rusty2600-cart/src/lib.rs:3330-3339 | The pointer shifted up, masked, and the byte merged in. |
| CdfBoard.BankCdf.constructor | crates/rusty2600-cart/src/lib.rs:2857-2909 | The image split into driver and banks, its RAM copy, zero data and registers at power-on. |
| CdfBoard.BankCdf.Bankswitch | crates/rusty2600-cart/src/lib.rs:2967-2993 | The hotspots, linear for CDFJ+ and by the table otherwise. |
| CdfBoard.BankCdf.FastJump | crates/rusty2600-cart/src/lib.rs:3216-3248 | The two reads after a fast jump, the phantom guard and the early return included. |
| CdfBoard.BankCdf.Amplitude | crates/rusty2600-cart/src/lib.rs:3259-3279 | The packed sample or the wrapped sum of the three channels. |
| CdfBoard.BankCdf.CpuRead | crates/rusty2600-cart/src/lib.rs:3203-3309 | Hotspot, fast jump, fast load, arming and plain byte, in the cited order. |
| CdfBoard.BankCdf.CpuWrite | crates/rusty2600-cart/src/lib.rs:3311-3362 | Hotspot, DSWRITE, DSPTR, SETMODE and CALLFN, for every address and value. |
| CdfBoard.BankCdf.Tick | crates/rusty2600-cart/src/lib.rs:3377-3389 | The operand's deadline, and the music every 59th cycle. |
| FourA50.LocateInRange | crates/rusty2600-cart/src/lib.rs:1563-1617 | Under the mapping invariant every ROM and RAM index is in range. |
| FourA50Theorems.StepKeepsValid | crates/rusty2600-cart/src/lib.rs:1509-1631 | Selects, XOR helpers and the $1F00 bit replacement keep slices aligned and bounded by their ROM/RAM flag, and the image untouched. |
| FourA50Theorems.RunKeepsImage | crates/rusty2600-cart/src/lib.rs:1509-1631 | Over every sequence of reads, writes and console accesses the invariant holds and the image is unchanged. |
| FourA50Theorems.LastPageIsFixed | crates/rusty2600-cart/src/lib.rs:1444-1589 | After any run, $1F00+k reads byte size-256+k of the dump, for all three sizes. |
| FourA50Theorems.MappingMovesOnlyWhenArmed | crates/rusty2600-cart/src/lib.rs:1509-1550 | Unarmed, the mapping moves only on the zero-page value hotspots. |
| FourA50Theorems.WriteThenRead | crates/rusty2600-cart/src/lib.rs:1563-1617 | A RAM write is seen through every window located at that byte and through no other. |
| FourA50Theorems.XorToggles | crates/rusty2600-cart/src/lib.rs:1525-1533 | XOR with a single bit adds or subtracts it. |
| FourA50Board.Bank4A50.constructor | crates/rusty2600-cart/src/lib.rs:1444-1468 | The dump tiled over 128 KiB, RAM zero, everything ROM at 0, hotspots unarmed. |
| FourA50Board.Bank4A50.CheckBankSwitch | crates/rusty2600-cart/src/lib.rs:1509-1550 | Both hotspot chains, the first gated. |
| FourA50Board.Bank4A50.CpuRead | crates/rusty2600-cart/src/lib.rs:1563-1595 | The located byte, the $1F00 hotspot, and the access recorded. |
| FourA50Board.Bank4A50.CpuWrite | crates/rusty2600-cart/src/lib.rs:1597-1617 | RAM stored when mapped, the $1F00 hotspot, and the access recorded. |
| Boards.PlacesInRange | crates/rusty2600-cart/src/lib.rs:143-1384 | Under each board's invariant no access indexes out of range or reaches CV's unreachable branch. |
| Boards.ObserveFits | crates/rusty2600-cart/src/lib.rs:811-1384 | Console accesses keep the invariants, modulo by the bank count included. |
| Boards.RunsSafely | crates/rusty2600-cart/src/lib.rs:143-1384 | From a valid board every run of routed accesses is free of panics and leaves the ROM as it was. |
| CartridgeBus.StepKeeps | crates/rusty2600-core/src/bus.rs:129-219 | One access or cycle: the slot's cartridge stays valid and of its kind, staged pokes are applied at once, and only a coprocessor call can alter its image. |
| CartridgeBus.RunKeeps | crates/rusty2600-core/src/bus.rs:129-219 | The same over every run, whatever the coprocessor leaves in the memories it reaches. |
| CartridgeBus.EveryAccessLands | crates/rusty2600-core/src/bus.rs:129-219 | After every run, whatever is accessed next indexes inside its memory and divides by no zero. |
| BusRuns.ArRuns | crates/rusty2600-core/src/bus.rs:129-219 | In the slot the Supercharger runs as in its own module, cycles changing nothing. |
| BusRuns.DpcRuns | crates/rusty2600-core/src/bus.rs:129-219 | In the slot the DPC board runs on the accesses that reach the cartridge, and on nothing else. |
| BusRuns.FourA50Runs | crates/rusty2600-core/src/bus.rs:129-219 | In the slot the 4A50 board runs on exactly the accesses of the history, in order, console reads with the byte that RIOT RAM or the port put on the bus. |
| BusRuns.LastPageOnTheBus | crates/rusty2600-cart/src/lib.rs:1444-1589 | After every run on the bus, $1F00+k reads byte size-256+k of a 4A50 dump. |
| Detection.DetectFindsExactly | crates/rusty2600-cart/src/lib.rs:4507-4725 | Whatever the signature searches answer, a board is found for exactly the listed sizes, the tape images and the two signature-gated layouts. |
| Detection.DetectedIsValid | crates/rusty2600-cart/src/lib.rs:4507-4725 | Every cartridge detected, the history-dependent ones with all their state, starts in its board's invariant. |
| Detection.DetectedHoldsDump | crates/rusty2600-cart/src/lib.rs:4507-4725 | What it keeps as image is the dump it was built from, segment by segment, or its tiling. |
| Detection.DetectedBoardsStaySafe | crates/rusty2600-cart/src/lib.rs:4507-4725 | Every cartridge detected, over every run of bus accesses and cycles: it stays valid and of its kind with nothing staged; no next access indexes outside its memory, divides by zero or reaches an unreachable branch; unless its coprocessor was called its image is unchanged. |
| Detection.ThreeFSafeExactly | crates/rusty2600-cart/src/lib.rs:799-910 | Every run of a 3F or 3E image is free of panics if and only if its bank count is not a multiple of 256. |
| Detection.BankWriteDivides | crates/rusty2600-cart/src/lib.rs:825-829 | With a stored count of zero the first $3F write divides by it. |
| Detection.HalfMegabyteDivides | crates/rusty2600-cart/src/lib.rs:799-829 | A 512 KiB image is such a one. |
| Search.GreedyIsMaximal | crates/rusty2600-cart/src/lib.rs:4221-4239 | No set of non-overlapping occurrences is larger than what the left-to-right scan picks. |
| Search.GreedyDecides | crates/rusty2600-cart/src/lib.rs:4221-4239 | The greedy count decides, for every threshold, whether that many non-overlapping occurrences exist. |
| Search.CountBytesAtLeast | crates/rusty2600-cart/src/lib.rs:4221-4239 | True if and only if max(1, threshold) pairwise non-overlapping occurrences exist; an empty needle is never found. |

## Left out

- The ARM Thumb interpreter. What its program leaves behind is arbitrary: any bytes in the segments it maps, and for CDF
  any music registers. Claims of validity hold whatever it does; claims about the image and about streams are for runs
  without it. A run of it is one step: nothing else reaches the board while it executes.
- The signature lists of detection and the driver scan of CDFJ+: their answers are arguments of `Detect`.
- Boards.RunsSafely: the plain boards are modelled on values, not as classes, so updating their fields in place is not
  captured.
- Weak memory in the ring: every access is one step of an interleaving, a load of the other thread's counter returning
  any value between the last one seen and the current one.
- RingMachine.MeasuredLength: `len` called by the producer; `ObservedLength` is about any other handle's call.
- The rate-control servo and its floating point.
- SchedulerBus.CpuView.TickColorClock: the scanline counter, the paddle clock, pixels and audio samples are not modelled.
- SchedulerBus.CpuView.TickCycle: the RIOT tick and the board tick are not part of the CPU's world; the board's tick is an
  event of `CartridgeBus`.
- SchedulerBus.CpuView.Write: of what a write does, only the beam; RIOT RAM is in `CallsOnRam`, the board in `CartridgeBus`.
- Scheduler.System.constructor: the seeded RAM is not what the CPU's bus answers.
- SuperchargerBoard.Bus.CpuWrite: TIA and RIOT port writes have no effect here, and the debugger's write log is absent.
- BusPatterns.ReturnUndoesCall: assumes what the stack answers; `CallsOnRam.ReturnOnRam` derives it from RIOT RAM.
- The CPU's bus data: what TIA, RIOT and cartridge answer is an arbitrary stream, so no property of memory contents is
  stated for the CPU except where a lemma says what RIOT RAM remembers.
- TIA video and audio, the RIOT timer and ports, paddles; save-states, movies, netplay, achievements and all front ends.
- The debugger's write log and peeks.
