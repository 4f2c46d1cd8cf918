# Verification of the Transterpreter

A Dafny model of the Transterpreter, a virtual machine for occam-pi bytecode, with
proofs about the parts of it that carry the most state. `dafny verify dfyconfig.toml`
checks everything.

- **Allocator** (`SizeClasses`, `Tiling`, `FreeLists`, `Tlsf`). The two-level
  segregated-fit heap: words of memory with boundary tags, doubly linked class lists
  and two levels of bitmaps, as a class whose methods are the original's loops. A row
  of blocks records the plain tiling of the pool; the heap invariant says that every
  header, list and bitmap agrees with it and that used and free bytes add up.
- **Process kernel** (`Kernel`, `KernelInv`, `KernelRuns`, `KernelEffects`, `KernelAlt`,
  `KernelData`, `KernelQueues`, `KernelTimers`, `KernelOrder`, `KernelPlaces`,
  `KernelAddress`, `KernelFrame`, `KernelWaits`). Processes, channels, alternation,
  timers, semaphores, barriers and extended input of one execution context as a step
  machine over sequences and maps. `Legal` says what a well-formed occam program may
  execute: one reader and one writer per channel, ALT instructions bracketed over the
  same guards, pending times within half the clock, barrier counts in range.
- **The kernel on words** (`Links`, `Represent`, `Machine`). The same instructions as
  the original executes them: registers and workspace slots, with run queue, timer
  queue, semaphore and barrier queues threaded through the slots that channel waits
  and ALT states share. Every instruction is proved to do to the words what its step
  does to the abstract state, and so is every sequence of instructions, so what is
  proved of runs holds of the words.
- **Double-word arithmetic** (`Words`, `LongArith`, `Ia32`, `SoftFloat`). The portable
  long divide, multiply, shifts and normalise; the IA-32 sequences the translator
  emits for the same operations, compared state by state; and the software floating
  point steps built on them.
- **Mobile data** (`Mobile`). Recursive clone and release of trees of arrays and data
  that share reference-counted channel bundles.
- **Tokenizer and memory loops** (`Tokenizer`, `MemOps`). The quoted command-line
  tokenizer, and the word-at-a-time copy and fill against their byte loops.

Words are integers from 0 to 2^32 - 1 with wrapping written out. The clock, the answer
of the tokenizer's error handler, what a shift by 32 places yields in C, and the choice
of a fresh pointer by `malloc` are parameters or free choices.

## Findings

Where the code does not meet what it is for, the exact condition is proved and an input
is given.

| property | input | condition |
|---|---|---|
| The sentinel of a fresh pool lies inside the pool | a pool of 4100 bytes (`Tlsf.SentinelOverrun`) | exactly when the size leaves less than 4 over a multiple of 8 (`Tlsf.SentinelFits`); `Tlsf.Pool.Init` covers every size, with the word past the pool |
| `tlsf_realloc` keeps the payload | the smallest pool, 3308 bytes: take its 112 bytes, then ask for 120 (`Tlsf.CopyToNullHappens`) | exactly when the block can grow in place or a large enough block is free; otherwise it copies to null (`Tlsf.Pool.Realloc`) |
| The carry out of LSUM | 2^32 - 1 plus 0 with a carry in (`Ia32.SumCarryLost`) | right exactly unless B + A is 2^32 - 1 and C is odd (`Ia32.CompareSum`) |
| LSHL and LSHR shift by any unsigned count | 1 shifted by 2^31 (`Ia32.ShiftLoopStops`) | exactly for counts below 2^31, or a zero operand (`Ia32.CompareShifts`) |
| `postnormsn` shifts fraction and guard together | fraction 0, guard 2^31, one place (`SoftFloat.GuardSignShows`) | exactly when the guard's top bit is clear or the fraction is all ones (`SoftFloat.Postnormsn`) |
| `fmul` gives the fraction nearest to the product | -1 times -1, both operands 2^31, which gives -1 | exactly unless both operands are -1 (`SoftFloat.Fmul`) |

## Model

| member | source | states |
|---|---|---|
| `SizeClasses.TableBounds` | runtime/libtvm/tlsf.c:149-158 | The table gives the position of the top bit of a byte. |
| `SizeClasses.MsBit` | runtime/libtvm/tlsf.c:168-174 | The position of the highest set bit. |
| `SizeClasses.LsBitIsLowest` | runtime/libtvm/tlsf.c:160-166 | `ls_bit` finds the lowest set bit of any non-zero word; `LsBitZero` covers zero. |
| `SizeClasses.MappingInsertIsClass` | runtime/libtvm/tlsf.c:203-213 | `MAPPING_INSERT` names the class whose range holds the size. |
| `SizeClasses.ClassesOrdered` | runtime/libtvm/tlsf.c:203-213 | Classes are ordered and do not overlap. |
| `SizeClasses.SearchRoundsToClass` | runtime/libtvm/tlsf.c:184-201 | `MAPPING_SEARCH` rounds a request up to the low end of the class it names, adding at most 1/32. |
| `SizeClasses.SearchIsLeast` | runtime/libtvm/tlsf.c:184-201 | No class low end at or above the request lies below the one it is rounded to, so a request that is a class low end stays as it is. |
| `SizeClasses.SetBitBits` | runtime/libtvm/tlsf.c:176-178 | Setting a bit changes that bit only. |
| `SizeClasses.ClearBitBits` | runtime/libtvm/tlsf.c:180-182 | Clearing a bit changes that bit only. |
| `FreeLists.InsertLinks` | runtime/libtvm/tlsf.c:259-270 | Insertion at the head keeps a class list doubly linked. |
| `FreeLists.ExtractLinks` | runtime/libtvm/tlsf.c:244-257 | Extraction anywhere keeps a class list doubly linked. |
| `FreeLists.InsertIndexed` | runtime/libtvm/tlsf.c:259-270 | Insertion keeps both bitmaps right: a bit is set exactly when its list or row is not empty. |
| `FreeLists.EmptyIndexed` | runtime/libtvm/tlsf.c:234-257 | Emptying a list clears exactly the bits that must go. |
| `FreeLists.InsertMembers` | runtime/libtvm/tlsf.c:259-270 | Each free block is in exactly the list of its class. |
| `FreeLists.RemoveMembers` | runtime/libtvm/tlsf.c:234-257 | A block taken out is in no list, the others stay where they were. |
| `Tiling.SpliceTiled` | runtime/libtvm/tlsf.c:413-573 | Replacing a stretch of blocks by another of the same extent keeps the pool tiled. |
| `Tiling.FreeTotalSplice` | runtime/libtvm/tlsf.c:434-487 | Conservation of free bytes through split and coalesce. |
| `Tiling.ReleaseUndoesTake` | runtime/libtvm/tlsf.c:413-487 | Freeing the block just taken restores the row of blocks exactly. |
| `Tlsf.HeadersSplice` | runtime/libtvm/tlsf.c:413-573 | Every header, PREV_FREE flag and `prev_hdr` matches the row of blocks after any split, join or resize. |
| `Tlsf.Pool.FindSuitableBlock` | runtime/libtvm/tlsf.c:215-232 | The bitmap search returns a block of the lowest adequate non-empty class, or null when there is none. |
| `Tlsf.Pool.ExtractBlockHdr` | runtime/libtvm/tlsf.c:234-243 | Taking the head of a list keeps lists, links and bitmaps right. |
| `Tlsf.Pool.ExtractBlock` | runtime/libtvm/tlsf.c:244-257 | Taking any listed block keeps lists, links and bitmaps right. |
| `Tlsf.Pool.InsertBlock` | runtime/libtvm/tlsf.c:259-270 | Listing a free block keeps lists, links and bitmaps right. |
| `Tlsf.Pool.Init` | runtime/libtvm/tlsf.c:281-326 | For a pool of any size: -1 exactly if it is null, misaligned, too small or too large; otherwise one free block and the sentinel, with the heap invariant and the accounting. |
| `Tlsf.SentinelFits` | runtime/libtvm/tlsf.c:311-322 | The sentinel stays inside the pool exactly when the pool size leaves less than 4 over a multiple of 8. |
| `Tlsf.SentinelOverrun` | runtime/libtvm/tlsf.c:311-322 | A pool size for which it does not. |
| `Tlsf.Pool.Malloc` | runtime/libtvm/tlsf.c:413-452 | Null exactly when no free block reaches a class that starts at or above the request; otherwise the lowest adequate class, a payload of at least the request and less than 1/32 and one header more, the invariant, the accounting, and no other payload touched. |
| `Tlsf.NeedReached` | runtime/libtvm/tlsf.c:413-425 | A block is large enough for a request exactly if it reaches a class whose sizes all suit it. |
| `Tlsf.NoneLargeEnough` | runtime/libtvm/tlsf.c:413-425 | So the refusals of malloc and realloc mean that no free block reaches such a class. |
| `Tlsf.Pool.Free` | runtime/libtvm/tlsf.c:455-487 | The block joins its free neighbours, the rest of the heap and every other payload stay, invariant and accounting kept. |
| `Tlsf.Pool.ResizeInPlace` | runtime/libtvm/tlsf.c:505-562 | In place exactly when the block, or the block with a free neighbour, is large enough; the payload keeps its first bytes, and less than 16 bytes are given beyond the request. |
| `Tlsf.Pool.Realloc` | runtime/libtvm/tlsf.c:490-573 | All conventions of `tlsf_realloc`; the first min(old, new) bytes survive on every path; the move copies to null exactly when nothing large enough is free. |
| `Tlsf.CopyToNullHappens` | runtime/libtvm/tlsf.c:564-571 | A program on the smallest pool that meets that copy at its second request. |
| `Tlsf.Pool.Serve` | runtime/libtvm/tlsf.c:413-573 | One request is served as asked, or refused exactly when it is a reallocation that is stuck. |
| `Tlsf.StillHeaped` | runtime/libtvm/tlsf.c:413-573 | A request served leaves a row that tiles the pool up to the same sentinel, with no free neighbours and exactly the live payloads in use. |
| `Tlsf.Pool.Run` | runtime/libtvm/tlsf.c:413-573 | Any run of requests keeps the heap invariant; each step changes payloads, pointers and row of blocks just as its request asks, every view in between is a heap, and the run ends early exactly at a stuck reallocation. |
| `Tlsf.LiveDisjoint` | runtime/libtvm/tlsf.c:413-573 | Live payloads are disjoint, with room for a header between them. |
| `LongArith.LeadingZeros` | runtime/libtvm/ins_sec.c:246-261 | `nlz` counts leading zeros. |
| `LongArith.QuotientDigit` | runtime/libtvm/ins_sec.c:297-336 | Estimate and correction give the exact quotient digit, although the loop works on wrapped words. |
| `LongArith.DivideDigits` | runtime/libtvm/ins_sec.c:263-347 | The normalised two-digit division is exact for all C < A and all B, whatever the shift by 32 yields. |
| `LongArith.EvalStack.Ldiv` | runtime/libtvm/ins_sec.c:263-350 | Quotient and remainder of C:B by A, or the overflow flag exactly when C >= A. |
| `LongArith.MultiplyDigits` | runtime/libtvm/ins_sec.c:455-499 | The product by 16-bit digits, with no lost carry. |
| `LongArith.EvalStack.Lmul` | runtime/libtvm/ins_sec.c:455-501 | B * A + C in two words for all inputs. |
| `LongArith.MultiplyThenDivide` | runtime/libtvm/ins_sec.c:263-501 | Long division undoes long multiplication. |
| `LongArith.EvalStack.Lsum` | runtime/libtvm/ins_sec.c:603-614 | The sum with the incoming carry, and the carry-out of the two operands alone. |
| `LongArith.EvalStack.Ldiff` | runtime/libtvm/ins_sec.c:748-762 | The difference with the incoming borrow, and the exact borrow out. |
| `LongArith.EvalStack.Lshl` | runtime/libtvm/ins_sec.c:560-601 | The loop shifts by the count as a signed number: 64-bit shift below 2^31, nothing from there up. |
| `LongArith.EvalStack.Lshr` | runtime/libtvm/ins_sec.c:516-558 | Likewise to the right. |
| `LongArith.EvalStack.Norm` | runtime/libtvm/ins_sec.c:220-244 | Top bit set, shifted left by exactly C places; 64 for zero. |
| `Ia32.LongSumCorrect` | tools/tranx86/arch386.c:2415-2436 | The code emitted for LSUM leaves the full sum with its carry. |
| `Ia32.LongDiffCorrect` | tools/tranx86/arch386.c:2437-2458 | The code emitted for LDIFF leaves difference and borrow. |
| `Ia32.LongMulCorrect` | tools/tranx86/arch386.c:2459-2480 | The code emitted for LMUL leaves the double product plus addend. |
| `Ia32.LongShlCorrect` | tools/tranx86/arch386.c:2500-2518 | The code emitted for LSHL is the 64-bit shift for every unsigned count, though the processor masks counts to five bits. |
| `Ia32.LongShrCorrect` | tools/tranx86/arch386.c:2481-2499 | The code emitted for LSHR likewise. |
| `Ia32.LongDivCorrect` | tools/tranx86/arch386.c:2519-2533 | The code emitted for LDIV divides exactly and does not fault when the quotient fits. |
| `Ia32.CompareArithmetic` | tools/tranx86/arch386.c:2437-2533 | Emitted code and interpreter agree on LDIFF, LMUL and LDIV, on every state. |
| `Ia32.CompareSum` | tools/tranx86/arch386.c:2415-2436 | They agree on LSUM exactly unless B + A is 2^32 - 1 with an odd C. |
| `Ia32.SumCarryLost` | runtime/libtvm/ins_sec.c:603-614 | An input on which they differ. |
| `Ia32.CompareShifts` | tools/tranx86/arch386.c:2481-2518 | They agree on the shifts exactly for counts below 2^31 or a zero operand. |
| `Ia32.ShiftLoopStops` | runtime/libtvm/ins_sec.c:560-601 | An input on which they differ. |
| `SoftFloat.Unpacksn` | runtime/libtvm/ins_float.c:63-118 | Fields, class code and guessed results of a REAL32; for infinity and not-a-number the fraction field and exponent 255. |
| `SoftFloat.Postnormsn` | runtime/libtvm/ins_float.c:120-151 | Exponent correction; the denormalising shift is right exactly when the guard word is not sign-extended wrongly. |
| `SoftFloat.GuardSignShows` | runtime/libtvm/ins_float.c:133-136 | A fraction and guard on which it is wrong. |
| `SoftFloat.Roundsn` | runtime/libtvm/ins_float.c:153-175 | The pattern of the rounded fraction, carry into the exponent included. |
| `SoftFloat.RoundsToNearest` | runtime/libtvm/ins_float.c:153-175 | Rounding is to nearest, ties to even (section 4.3.1 of IEEE 754-2008), against every other pattern. |
| `SoftFloat.UnpackAndRound` | runtime/libtvm/ins_float.c:63-175 | Unpacking, normalising, correcting and rounding any finite REAL32 returns its magnitude. |
| `SoftFloat.Fmul` | runtime/libtvm/ins_float.c:184-244 | The fraction nearest to the product, ties to even, exactly unless both are -1, where the product wraps to -1. |
| `KernelInv.LaterIsFurther` | runtime/libtvm/tvm_time.h:26 | Inside half the circular clock, later means further from the base. |
| `KernelInv.InsertSorted` | runtime/libtvm/scheduler.c:175-259 | Timer insertion keeps the queue in time order, each process once. |
| `KernelInv.AltEndsWell` | runtime/libtvm/ins_alt.c:145-154 | At the end of an ALT something is selected, no channel holds its tag, and it is off the timer queue. |
| `KernelRuns.StepKeeps` | runtime/libtvm/ins_chan.c:124-235 | Every instruction of a well-formed program keeps the kernel invariant and raises no ALT, channel or barrier error. |
| `KernelRuns.RunKeeps` | runtime/libtvm/ins_chan.c:124-235 | So does every run. |
| `KernelRuns.BootInv` | runtime/libtvm/interpreter.c:129-237 | The state a program is started in, empty queues and one process running, satisfies the invariant. |
| `KernelRuns.QueuedOnce` | runtime/libtvm/scheduler.c:25-76 | A process on the run queue is there once and nowhere else. |
| `KernelRuns.BlockedOnce` | runtime/libtvm/ins_chan.c:190-200 | A process named by a channel word is in no other channel, on no queue and not running. |
| `KernelPlaces.ExactlyOnePlace` | runtime/libtvm/scheduler.c:25-76 | A live process is in exactly one of: running, run queue, timer input, channel, ALT sleep, semaphore queue, barrier queue; any other is in none. |
| `KernelPlaces.StepLives` | runtime/libtvm/ins_chan.c:124-235 | Each instruction ends and brings to life exactly the processes it names, and loses nobody. |
| `KernelPlaces.StepSettled` | runtime/libtvm/ins_chan.c:164-181 | No instruction leaves an ALTer woken but neither running nor queued. |
| `KernelPlaces.BootSettled` | runtime/libtvm/interpreter.c:129-237 | A machine that starts with one process satisfies what the conservation theorems ask. |
| `KernelPlaces.RunConserves` | runtime/libtvm/scheduler.c:113-164 | In every run the live processes are those of the start, less those ended, with those started, each in exactly one place. |
| `KernelPlaces.NeverLost` | runtime/libtvm/scheduler.c:113-164 | A process that does not end is in exactly one place after any run. |
| `KernelAlt.FirstReadySelected` | runtime/libtvm/ins_alt.c:32-112 | Disabling all guards, true or false, in any order, selects the first that was ready. |
| `KernelAlt.AltSelects` | runtime/libtvm/ins_alt.c:32-154 | A resumed ALT jumps to the first ready guard and never raises the ALT error. |
| `KernelAlt.AltCompletes` | runtime/libtvm/ins_alt.c:32-154 | The same from the wait, through any run of other processes. |
| `KernelAlt.EnablesNoted` | runtime/libtvm/ins_alt.c:157-213 | After any enables, duplicates and false guards included, the ALT holds exactly the true guards. |
| `KernelAlt.WholeAlt` | runtime/libtvm/ins_alt.c:32-260 | A complete ALT or timer ALT, from start to end, whether or not it sleeps, ends at the first true guard that was ready when it went on. |
| `KernelAlt.WaitingMeansNothingReady` | runtime/libtvm/ins_alt.c:130-143 | An ALT sleeps only while none of its guards is ready. |
| `KernelAlt.ClockAfterPartner` | runtime/libtvm/scheduler.c:318-322 | An ALT already ready is only taken off the timer queue when its time comes. |
| `KernelAlt.ProceedKnowsTime` | runtime/libtvm/ins_alt.c:231-258 | A timer ALT that goes straight on to disabling finds those of its timer guards ready that are due. |
| `KernelEffects.DisableAnswers` | runtime/libtvm/ins_alt.c:32-112 | A disable answers true exactly when it selects: its guard is on and ready and nothing is selected yet. |
| `KernelAlt.PartnerAfterWake` | runtime/libtvm/ins_chan.c:164-181 | A partner does not schedule again an ALT that is already ready. |
| `KernelAlt.StepOthers` | runtime/libtvm/ins_alt.c:32-260 | An instruction touches no ALT but the current process's. |
| `KernelData.StepData` | runtime/libtvm/ins_chan.c:57-71 | Every instruction keeps the record of messages right. |
| `KernelData.MessagesInOrder` | runtime/libtvm/ins_chan.c:57-235 | In every run the messages received on a channel are those sent, in order; a sender still blocked has one more. |
| `KernelData.InMeetsSender` | runtime/libtvm/ins_chan.c:158-161 | Input that finds a sender: message delivered, channel empty, sender runs, reader queued once. |
| `KernelData.OutMeetsReceiver` | runtime/libtvm/ins_chan.c:158-161 | Output that finds a reader: message delivered, channel empty, reader runs, sender queued once. |
| `KernelData.XInTakesOnly` | runtime/libtvm/ins_pi.c:451-484 | Extended input takes the message and leaves the sender blocked. |
| `KernelData.XEndReleases` | runtime/libtvm/ins_pi.c:487-503 | The end of an extended input queues the sender, once, and empties the channel. |
| `KernelTimers.InsertOrder` | runtime/libtvm/scheduler.c:206-257 | A newcomer goes behind every process due at the same time. |
| `KernelTimers.StepOrder` | runtime/libtvm/scheduler.c:175-342 | Every instruction keeps the order of those pending and puts a newcomer behind those due with it. |
| `KernelTimers.TimersInOrder` | runtime/libtvm/scheduler.c:175-342 | After any run from boot the timer queue is in time order, and of two due at the same time the front one joined it earlier. |
| `KernelQueues.WalkTakes` | runtime/libtvm/scheduler.c:295-342 | The walk removes the front of the timer queue and queues, in order, those not already ready. |
| `KernelQueues.WalkTakesDue` | runtime/libtvm/scheduler.c:295-342 | What it removes is exactly what is due. |
| `KernelQueues.WalkMarks` | runtime/libtvm/scheduler.c:308-322 | A process whose time has come is awake, and of its timer guards those due are ready. |
| `KernelQueues.SemaphoreOrder` | runtime/libtvm/ins_pi.c:303-361 | One claim that must wait joins the back of the queue, and one release hands over to its front. |
| `KernelOrder.StepSem` | runtime/libtvm/ins_pi.c:303-361 | Any instruction: who is made to wait joins the back, who is handed the semaphore was first and is queued to run. |
| `KernelOrder.SemaphoreFifo` | runtime/libtvm/ins_pi.c:303-361 | In every run those waiting and those made to wait are, in one order, those served and those still waiting. |
| `KernelOrder.GrantedInOrder` | runtime/libtvm/ins_pi.c:303-361 | In every run a semaphore is handed over in the order in which processes were made to wait for it. |
| `KernelOrder.StepHold` | runtime/libtvm/ins_pi.c:303-361 | Any instruction: a semaphore goes up by what is given and down by what is released; a claim goes on exactly if it is free. |
| `KernelOrder.OneHolder` | runtime/libtvm/ins_pi.c:303-361 | In every run claims that go on and hand-overs, less releases, are one or none: one exactly while the semaphore is held. |
| `KernelOrder.Excludes` | runtime/libtvm/ins_pi.c:303-361 | Mutual exclusion over every run: while a semaphore is held and not released, every claim of it waits. |
| `KernelOrder.ClaimExcludes` | runtime/libtvm/ins_pi.c:303-339 | The claim that finds it free goes on and begins the exclusion. |
| `KernelOrder.StepFifo` | runtime/libtvm/scheduler.c:25-76 | No instruction takes a process off the run queue but by dispatching its front, and none lets one overtake. |
| `KernelOrder.DispatchOrder` | runtime/libtvm/scheduler.c:113-164 | In every run processes are dispatched in their order on the run queue, whatever joins behind them. |
| `KernelOrder.ServedInTurn` | runtime/libtvm/scheduler.c:113-164 | The process at position i is the i-th dispatched, and stands i - n from the front once n have been. |
| `KernelOrder.WokenOnce` | runtime/libtvm/ins_chan.c:164-181 | However many partners, time-outs and releases reach a process, it is scheduled at most once before it executes again. |
| `KernelAddress.StepAddress` | runtime/libtvm/ins_sec.c:50-177 | Any instruction: every process is to go on where it was to go on, but for the addresses startp, endp, altend and gajw name; PAR counts and first words are as it says. |
| `KernelAddress.LeftGoesOn` | runtime/libtvm/scheduler.c:159-163 | Whatever others do in a run, a process left alone keeps the address at which it is to go on. |
| `KernelAddress.StartsThere` | runtime/libtvm/ins_sec.c:167-177 | In every run a started process begins at the address it was started with. |
| `KernelAddress.GoesOnThere` | runtime/libtvm/scheduler.c:113-164 | In every run a process that waited, yielded or stopped goes on at the instruction after the one that stopped it, and one that ends an ALT at the branch selected. |
| `KernelAddress.WholePar` | runtime/libtvm/ins_sec.c:50-82 | A PAR of n branches in any run: the parent goes on when the n-th branch ends, not before, at the address it stored. |
| `KernelFrame.StepFrame` | runtime/libtvm/scheduler.c:25-342 | Any instruction: only the current process, those it names or finds, those whose time has come and the next to run are touched; everybody else keeps place and slots. |
| `KernelWaits.StaysPut` | runtime/libtvm/ins_chan.c:124-235 | A waiting process is let go only by what it waits for: a partner, its time, a release or the end of a barrier. |
| `KernelWaits.WaitsOn` | runtime/libtvm/ins_chan.c:124-235 | In every run it executes nothing before that. |
| `KernelWaits.StepBlocks` | runtime/libtvm/ins_chan.c:124-235 | Which instructions leave their process waiting, and where: in a channel, for a time, in the queue of a semaphore or barrier. |
| `KernelWaits.TinWaits` | runtime/libtvm/ins_timer.c:87-120 | In every run a process that asks for a later time executes nothing, and is on the timer queue with that time, until an instruction is executed at that time or after; one that asks for a time gone by goes on at once. |
| `KernelWaits.InputCompletes` | runtime/libtvm/ins_chan.c:124-235 | In every run a process that inputs with nobody there executes nothing until an output, and then runs at once, at the next instruction, with the message in its buffer. |
| `KernelWaits.OutputCompletes` | runtime/libtvm/ins_chan.c:124-235 | In every run a process that outputs executes nothing until its message is taken; then it runs, or is queued by the end of an extended input, at the next instruction. |
| `KernelWaits.Disconnected` | runtime/libtvm/ins_chan.c:124-235 | Input from a channel with no other end zeroes the buffer, output to one is dropped; neither blocks nor counts as a message. |
| `KernelWaits.NeverIdle` | runtime/libtvm/scheduler.c:113-164 | After any instruction, if no process runs then none is queued and no time has come. |
| `KernelQueues.SyncPhase` | runtime/libtvm/ins_barrier.c:60-100 | A process waits at a barrier unless it is the last awaited; the last lets all go in order of arrival. |
| `KernelQueues.ResignPhase` | runtime/libtvm/ins_barrier.c:119-149 | Resignations lower the counts or complete the phase. |
| `KernelQueues.RunCounts` | runtime/libtvm/ins_barrier.c:33-149 | In every run count and queue add up to the enrolled. |
| `KernelQueues.PhaseHolds` | runtime/libtvm/ins_barrier.c:33-149 | Through a run between completions everybody who arrived waits, in order, and the counts follow arrivals, enrolments and resignations. |
| `KernelQueues.NobodyPasses` | runtime/libtvm/ins_barrier.c:60-149 | The next arrival or resignation completes the phase exactly when it covers everybody enrolled. |
| `Links.QueueJoin` | runtime/libtvm/scheduler.c:62-76 | Splicing a chain whose last link is not null behind a queue gives the queue of both. |
| `Links.TimedInsert` | runtime/libtvm/scheduler.c:206-257 | Linking into the timer list at any position. |
| `Links.TimedRemove` | runtime/libtvm/scheduler.c:261-293 | Unlinking from the timer list at any position. |
| `Represent.InsertKeeps` | runtime/libtvm/scheduler.c:175-259 | The words after timer insertion represent the queue with the process in its place. |
| `Represent.RemoveKeeps` | runtime/libtvm/scheduler.c:261-293 | The words after timer removal represent the queue without it. |
| `KernelEffects.InsertTimeIs` | runtime/libtvm/scheduler.c:206-257 | Insertion is before the first process due strictly later: equal times in order of arrival. |
| `Machine.Machine.Append` | runtime/libtvm/scheduler.c:25-45 | `add_to_queue` on the words. |
| `Machine.Machine.AddQueueToQueue` | runtime/libtvm/scheduler.c:62-76 | `add_queue_to_queue` on the words: the waiters follow the run queue in order. |
| `Machine.Machine.Synchronise` | runtime/libtvm/scheduler.c:89-101 | The timer branch of `busy_wait_synchronise` on the words. |
| `Machine.Machine.RunNextOnQueue` | runtime/libtvm/scheduler.c:113-164 | `run_next_on_queue` on the words: go on exactly if a process runs, sleep exactly if none does and a time is pending, empty exactly if none does and none is. |
| `Machine.Machine.TimerQueueInsert` | runtime/libtvm/scheduler.c:175-259 | `timer_queue_insert` on the words. |
| `Machine.Machine.TimerQueueRemove` | runtime/libtvm/scheduler.c:261-293 | `timer_queue_remove` on the words. |
| `Machine.Machine.WalkTimerQueue` | runtime/libtvm/scheduler.c:295-342 | `walk_timer_queue` on the words. |
| `Machine.Machine.DescheduleCurrent` | runtime/libtvm/scheduler.h:55-59 | DESCHEDULE_CURRENT on the words. |
| `Machine.Machine.LoadProcess` | runtime/libtvm/scheduler.h:77-96 | LOAD_PROCESS for one context on the words. |
| `Machine.Machine.Startp` | runtime/libtvm/ins_sec.c:167-177 | startp does to the words what its step does to the state; `KernelAddress.StartsThere` says where the process begins. |
| `Machine.Machine.Stopp` | runtime/libtvm/ins_sec.c:198-204 | stopp likewise. |
| `Machine.Machine.Runp` | runtime/libtvm/ins_sec.c:630-634 | runp likewise. |
| `Machine.Machine.Endp` | runtime/libtvm/ins_sec.c:50-82 | endp likewise: the last branch to end goes on as the parent, at the address in the first word of its workspace. |
| `Machine.Machine.Gajw` | runtime/libtvm/ins_sec.c:645-660 | gajw likewise. |
| `Machine.Machine.Alt` | runtime/libtvm/ins_alt.c:121-127 | alt likewise. |
| `Machine.Machine.Talt` | runtime/libtvm/ins_alt.c:216-223 | talt likewise. |
| `Machine.Machine.Enbc` | runtime/libtvm/ins_alt.c:179-199 | enbc likewise. |
| `Machine.Machine.Enbs` | runtime/libtvm/ins_alt.c:202-213 | enbs likewise. |
| `Machine.Machine.Enbt` | runtime/libtvm/ins_alt.c:157-176 | enbt likewise. |
| `Machine.Machine.Altwt` | runtime/libtvm/ins_alt.c:130-142 | altwt likewise. |
| `Machine.Machine.Taltwt` | runtime/libtvm/ins_alt.c:231-260 | taltwt likewise. |
| `Machine.Machine.Disc` | runtime/libtvm/ins_alt.c:64-90 | disc likewise. |
| `Machine.Machine.Diss` | runtime/libtvm/ins_alt.c:98-113 | diss likewise. |
| `Machine.Machine.Dist` | runtime/libtvm/ins_alt.c:32-61 | dist likewise, removal from the timer queue included. |
| `Machine.Machine.Altend` | runtime/libtvm/ins_alt.c:145-154 | altend likewise, the error branch included. |
| `Machine.Machine.ChanIo` | runtime/libtvm/ins_chan.c:124-201 | `chan_io` on the words: each branch, the requeue result, and the aliased slots. |
| `Machine.Machine.ChanStdIo` | runtime/libtvm/ins_chan.c:204-235 | `chan_std_io` on the words. |
| `Machine.Machine.ChanOut` | runtime/libtvm/ins_chan.c:246-253 | Output does to the words what its step does to the state. |
| `Machine.Machine.ChanIn` | runtime/libtvm/ins_chan.c:237-244 | Input likewise. |
| `Machine.Machine.Xable` | runtime/libtvm/ins_pi.c:400-438 | xable likewise. |
| `Machine.Machine.Xin` | runtime/libtvm/ins_pi.c:451-484 | xin likewise. |
| `Machine.Machine.Xend` | runtime/libtvm/ins_pi.c:487-503 | xend likewise. |
| `Machine.Machine.TimerInput` | runtime/libtvm/ins_timer.c:87-120 | tin likewise; `KernelWaits.TinWaits` says how long the process waits. |
| `Machine.Machine.Claim` | runtime/libtvm/ins_pi.c:303-339 | Semaphore claim likewise; `KernelOrder.Excludes` says whom it keeps out. |
| `Machine.Machine.Release` | runtime/libtvm/ins_pi.c:341-361 | Semaphore release likewise. |
| `Machine.Machine.Synch` | runtime/libtvm/ins_barrier.c:60-100 | Barrier synchronisation likewise. |
| `Machine.Machine.Complete` | runtime/libtvm/ins_barrier.c:33-50 | Barrier completion likewise. |
| `Machine.Machine.EnrollWords` | runtime/libtvm/ins_barrier.c:102-117 | Barrier enrolment likewise; an overflow returns the error with the barrier as it was. |
| `Machine.Machine.ResignWords` | runtime/libtvm/ins_barrier.c:119-149 | Barrier resignation likewise; an excess returns the error with barrier, workspaces and run queue as they were. |
| `Machine.Machine.Execute` | runtime/libtvm/scheduler.c:25-342 | Any instruction does to the words what its step does to the state, and returns continue, sleep or empty accordingly. |
| `Machine.Machine.Interpret` | runtime/libtvm/scheduler.c:25-342 | Any sequence of instructions does to the words what the abstract run does, so everything proved of runs holds of the words. |
| `Mobile.HoldsKept` | runtime/libtvm/ins_mobile.c:295-403 | What a tree is depends only on its own allocations. |
| `Mobile.Heap.Clone` | runtime/libtvm/ins_mobile.c:347-403 | A clone has equal shape and contents, owns only new allocations, shares the bundles and counts each reference. |
| `Mobile.Heap.CloneArray` | runtime/libtvm/ins_mobile.c:295-344 | The same for arrays of pointers, kid by kid. |
| `Mobile.Heap.Release` | runtime/libtvm/ins_mobile.c:194-292 | Release frees exactly what the tree owns and the bundles whose last references it held, and lowers the other counts. |
| `Mobile.CloneUndone` | runtime/libtvm/ins_mobile.c:194-403 | A clone released leaves every allocation and every count as they were. |
| `Mobile.Heap.CloneAndRelease` | runtime/libtvm/ins_mobile.c:194-403 | The two operations in sequence restore the heap exactly. |
| `Tokenizer.ScanToken` | tools/ilibr/arg.c:237-272 | `scan_token` finds the end of a token or the syntax error. |
| `Tokenizer.CopyToken` | tools/ilibr/arg.c:279-307 | `copy_token` reduces doubled quotes. |
| `Tokenizer.ParseString` | tools/ilibr/arg.c:315-355 | `parse_string` fills the table with the tokens of the text, for both answers to a syntax error. |
| `Tokenizer.TokenizeUndoesQuote` | tools/ilibr/arg.h:100-109 | Tokenizing any words with white space between, each quoted with inner quotes doubled or, if it has no white space and begins with no quote, as it is, gives back the words, empty ones included. |
| `Tokenizer.QuotedOnly` | tools/ilibr/arg.c:237-272 | A quoted token without error is a word with its quotes doubled, a closing quote, and white space or the end. |
| `MemOps.WordIsFourBytes` | runtime/libtvm/mem.c:53-62 | Copying a word equals copying its four bytes in turn, overlap included. |
| `MemOps.SpreadByMasks` | runtime/libtvm/mem.c:83-87 | The shifts and masks repeat the low byte in a word. |
| `MemOps.Memcpy` | runtime/libtvm/mem.c:47-73 | The copy has the effect of the forward byte loop for every address and length. |
| `MemOps.Memset` | runtime/libtvm/mem.c:76-103 | The fill has the effect of the forward byte loop for every address, length and value. |
| `MemOps.FillSets` | runtime/libtvm/mem.c:76-103 | That loop sets every byte of the region and no other. |
| `MemOps.CopyDelivers` | runtime/libtvm/mem.c:47-73 | Without overlap upwards the destination is the source and nothing else changes. |
| `MemOps.CopyRepeats` | runtime/libtvm/mem.c:47-73 | An overlapping copy upwards repeats the first dst - src bytes. |

## Left out

- Tlsf.Pool.Malloc: requests whose class-rounded size reaches 2^30, where the original's class index leaves its tables.
- Tlsf.Pool.Realloc: the same sizes.
- Tlsf.Pool.Serve: the same sizes.
- Tlsf.Pool.Run: the same sizes.
- Mobile.Heap.Clone: mobile barriers, which the original clones by enrolling; a full one is returned without its result set.
- Mobile.Heap.Release: mobile barriers, which the original releases by resigning.
- Machine.Machine.Synchronise: the interrupt flag, which is set from outside, and a call with no flag set, which is never made.
- KernelRuns.StepKeeps: an extended input with no sender, where the original raises the error after storing the process in the channel; the compiler rules it out.
- External channels, foreign functions and external bundle interfaces: they call code outside the repository.
- Execution contexts other than the current one, and priorities between them: WS_ECTX is not modelled.
- Type shadowing, debugging, profiling and the other memory back ends: configuration variants.
- `chan_swap` and variable-length communication: the exchange of one word adds no scheduling.
- Two readers or two writers on a channel, unequal lengths at its ends, ALT instructions out of bracket, and pending times further apart than half the clock: the compiler rules these out, and the original promises nothing for them.
- Mobile processes and the mobile input and output paths. `mt_io_update_array` offsets the slot address, and an in-place shrink releases from the front.
- Alignment, dimension words for hardware addresses and byte sizes of mobile arrays: an allocation is a record of its contents.
- Failure of `malloc` under the mobile types: the original does not look at it.
- `calloc_ex`, `rtl_*` and pool destruction: wrappers.
- Machine.Machine.Dist: the timer link of a queued process is a pointer, and pointers are taken to be multiples of four, as workspaces are.
- Kernel memory is bytes at integer addresses apart from workspaces: a program that overwrites a workspace or a channel word through a message is not modelled.
- MemOps.Memcpy: the advanced pointer the original returns is not modelled; callers ignore it.
- Tokenizer.ParseString: allocation failure is not modelled, and a text is its characters before the first zero.
- The SPARC and MIPS back ends, and the other instructions of the IA-32 back end.
- Instructions of one branch: loads, stores, range checks, stack shuffles.
