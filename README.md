# SAM4S boot substrate of RIOT, in Dafny

This project models how RIOT brings up an Atmel SAM4S (the SAM4S Xplained board) and proves properties of that model:

- **`reset_handler`** (`cpu/sam4s/startup.c`). It first copies the initialised-data image from flash into RAM and zeroes the BSS. It then calls `board_init`, `__libc_init_array` and `kernel_init`, in that order.
- **The interrupt vector table `interrupt_vector[]`** and the handlers it points to:
  - the fault handlers, which panic;
  - the NMI, memory-management and debug-monitor handlers, which spin;
  - the weak aliases of `dummy_handler`, which another definition in the image may override.
- **The clock bring-up `SystemInit`** (`boards/sam4s-xpld/system_sam4s.c`). It sets the flash wait states, starts and selects the crystal oscillator, moves the master clock to the main clock, locks PLLB, moves the master clock to PLLB and publishes `SystemCoreClock`.

Modules:

- `Vectors` (`vectors.dfy`):
  - The table is a pure function of a `Variant` record. The record holds the six `_SAM4S_*_INSTANCE_` flags.
  - Entries are tagged: `StackTop | Reset | Handler(isr) | Reserved`.
  - The interrupt map is `ExceptionNumber`. It gives each handler its ARMv7-M exception number, or 16 plus its peripheral identifier.
  - Linking is `Resolve`. It uses a handler's own body if `startup.c` defines one. Otherwise it uses a strong definition from an explicit override set. Otherwise it falls back to `dummy_handler`.
- `Panic` (`panic.dfy`): the closed set of panic causes.
- `SystemClock` (`system_clock.dfy`):
  - The EFC and PMC registers and `SystemCoreClock` are fields of the class `ClockController`. Its methods update them in place.
  - The status register `PMC_SR` is a script of the values its successive reads return.
  - `Plan` is the sequence of stores and waits a complete run makes.
  - `Execute` runs a plan against the script. A wait whose bit no remaining read shows stops the run.
  - `SystemInit` is proved to append exactly the prefix of the plan that `Execute` reaches to its bus log. It leaves the registers at the fold (`ApplyAll`) of that prefix.
- `Startup` (`startup.dfy`):
  - Memory is one array of 32-bit words indexed by word address. It holds flash and RAM alike, so the `src != dst` test compares two addresses in one space.
  - The linker symbols become a `Layout` of word addresses.
  - The two loops are methods proved against the specification functions `CopyWords` and `ZeroWords`.
  - `ResetHandler` returns the trace of its steps, the memory loops and the calls, and where the boot ended.
  - `RunBoardInit` is `board_init`, as far as its first call, `SystemInit`. It gives the clock state that `SystemInit` proves. As a ghost result, it returns memory as it finds it when called, and `ResetHandler` passes that snapshot on.

Where the code and its documentation disagree, the model follows the code:

- The doc comment of `reset_handler` (`startup.c:45-50`) lists the newlib initialisation before the board initialisation. The code (`startup.c:72-76`) calls `board_init` first, and the model does too.
- `SystemInit` publishes 12 MHz (`system_sam4s.c:51`), while `board.h` declares `F_CPU` as 120 MHz. The model publishes what the code writes, 12 MHz. `F_CPU` is kept only as a reference constant.

## Model

| member | source | states |
|---|---|---|
| Vectors.ExceptionNumber | cpu/sam4s/startup.c:171-257 | Every handler's slot lies in 2..50. It is a Cortex-M slot (below 16) exactly for the nine system exceptions. |
| Vectors.InterruptMapInjective | cpu/sam4s/startup.c:171-257 | No two handlers share a slot of the interrupt map. |
| Vectors.InterruptVector | cpu/sam4s/startup.c:171-258 | The table has 51 entries for every variant. Slot 0 is the stack top and slot 1 the reset entry. |
| Vectors.HandlersAtTheirSlots | cpu/sam4s/startup.c:176-257 | For every variant, each handler's own slot holds that handler when its peripheral instance is present, and the reserved marker 0 otherwise. This covers EFC1 (IRQ 7), PIOC (13), USART1 (15), HSMCI (18), TC3-TC5 (26-28) and DACC (30). |
| Vectors.SlotsHoldOwnHandlers | cpu/sam4s/startup.c:173-257 | Every slot from 2 on holds a handler or 0. A handler appears only in its own slot, and only when its instance is present. |
| Vectors.NoHandlerTwice | cpu/sam4s/startup.c:171-258 | No handler appears in two slots, for any variant. |
| Vectors.FixedReservedSlots | cpu/sam4s/startup.c:181-220 | Slots 7-10 and 13 and peripheral IRQs 16 and 17 hold 0 for every variant. |
| Vectors.StartupBody | cpu/sam4s/startup.c:87-115 | No handler that `startup.c` defines with a body behaves as `dummy_handler`, as an override from elsewhere, or as the reset entry. |
| Vectors.Resolve | cpu/sam4s/startup.c:117-167 | A handler without a body of its own goes to the overriding definition exactly when one exists. It resolves to `dummy_handler` exactly when none exists. |
| Vectors.Dispatch | cpu/sam4s/startup.c:171-258 | Taking exception n finds a handler only inside the table, from slot 1 on. It boots if and only if n is 1, the reset slot. |
| Vectors.DispatchUndefinedExactlyOnReserved | cpu/sam4s/startup.c:171-258 | Taking exception n finds no handler exactly at the stack word, at a reserved slot or beyond the table. Slot 1 boots. |
| Vectors.ArchitecturalHandlers | cpu/sam4s/startup.c:87-115 | Hard, bus and usage faults panic with HARD_FAULT, BUS_FAULT and USAGE_FAULT and their messages. NMI, memory management and debug monitor spin. This holds for every variant and every override set. |
| Vectors.SpinOnlyAtSpinSlots | cpu/sam4s/startup.c:87-100 | An exception spins if and only if it is exception 2, 4 or 12. |
| Vectors.UnhandledInterruptPanics | cpu/sam4s/startup.c:82-85 | An exception panics with DUMMY_HANDLER if and only if its slot holds a weak alias that nothing overrides. |
| Vectors.FaultCausesIdentifySlot | cpu/sam4s/startup.c:102-115 | Two exceptions that panic with the same cause other than DUMMY_HANDLER are the same exception. |
| SystemClock.ApplyAll | boards/sam4s-xpld/system_sam4s.c:18-52 | A register, or SystemCoreClock, that no step of a sequence stores to keeps its value. |
| SystemClock.LastStoreWins | boards/sam4s-xpld/system_sam4s.c:18-52 | The final value of a register is the one its last store wrote. |
| SystemClock.FirstSet | boards/sam4s-xpld/system_sam4s.c:30 | A poll ends at the first read showing its bit, with no earlier read showing it. It finds nothing exactly when no remaining read shows the bit. |
| SystemClock.Execute | boards/sam4s-xpld/system_sam4s.c:18-52 | A run never goes past its plan, and its reads stay inside the status script. It stops before the end only at a wait, and then every read is used. The wait's bit shows in no read from the recorded start of that wait. |
| SystemClock.ExecuteAppend | boards/sam4s-xpld/system_sam4s.c:18-52 | A completed run of `a` hands on its read position. Running `a + b` is running `a`, then `b` from where `a` finished. |
| SystemClock.ExecuteTruncate | boards/sam4s-xpld/system_sam4s.c:18-52 | A run of `a + b` that gets past `a` has completed `a` on its own. |
| SystemClock.WaitBeganAfterPrefix | boards/sam4s-xpld/system_sam4s.c:30-49 | A run that stops began its final wait at the read where the steps before that wait left off. Together with Execute, that wait's bit shows in no read from there on. |
| SystemClock.StopsAtWaitIffNeverReadyAgain | boards/sam4s-xpld/system_sam4s.c:30-49 | For any wait the run reaches, including the second and third MCKRDY waits: the run gets at least that far. It stops there if and only if the wait's bit shows in no read from where the wait began. |
| SystemClock.StopsAtNeverReadyWait | boards/sam4s-xpld/system_sam4s.c:30-49 | If the bit of some wait shows in no remaining read, and no earlier step waits on that bit, the run stops at or before that wait. |
| SystemClock.NeverReadyNeverCompletes | boards/sam4s-xpld/system_sam4s.c:30-49 | If a waited-for status bit never shows, the run never completes its plan. |
| SystemClock.FlashSetup | boards/sam4s-xpld/system_sam4s.c:20-24 | One flash-mode store per present controller, each writing FWS(5): EFC0 first, then EFC1 only when the chip has it. |
| SystemClock.OscillatorStart | boards/sam4s-xpld/system_sam4s.c:27-31 | Nothing happens exactly when MOSCSEL is set on entry. Otherwise it only touches CKGR_MOR: a store that keeps MOSCSEL clear, directly followed by the MOSCXTS wait. |
| SystemClock.ClockSwitch | boards/sam4s-xpld/system_sam4s.c:34-51 | Five stores each directly followed by its wait, then the publication of 12 MHz as the eleventh step. Nothing before it stores SystemCoreClock. |
| SystemClock.Plan | boards/sam4s-xpld/system_sam4s.c:18-52 | The plan starts with a flash-mode store and ends by publishing 12 MHz. Every wait directly follows a store. |
| SystemClock.FlashWaitStatesFirst | boards/sam4s-xpld/system_sam4s.c:20-48 | EFC0 is stored first. Every flash-mode store writes FWS(5) and comes before every store to CKGR_MOR, PMC_MCKR or CKGR_PLLBR. |
| SystemClock.Efc1WrittenIffPresent | boards/sam4s-xpld/system_sam4s.c:22-24 | EFC1's mode register is stored if and only if the chip has EFC1. |
| SystemClock.OscillatorEnabledIffNotSelected | boards/sam4s-xpld/system_sam4s.c:27-31 | The oscillator-enable store and its MOSCXTS wait both happen if and only if MOSCSEL is clear on entry. The wait directly follows the store. |
| SystemClock.CrystalSelectedBeforeMasterClock | boards/sam4s-xpld/system_sam4s.c:34-37 | The store setting MOSCSEL is directly followed by the MOSCSELS wait, and that wait comes before every store to PMC_MCKR. |
| SystemClock.FirstMasterClockStoreKeepsOtherBits | boards/sam4s-xpld/system_sam4s.c:37 | The first PMC_MCKR store sets CSS to MAIN_CLK and keeps the prescaler and every other bit of the entry value. |
| SystemClock.PllbLockedBeforeSwitch | boards/sam4s-xpld/system_sam4s.c:41-48 | CKGR_PLLBR is stored and LOCKB awaited before any PMC_MCKR store that selects PLLB. |
| SystemClock.MasterClockStoresAwaitReady | boards/sam4s-xpld/system_sam4s.c:37-49 | Every PMC_MCKR store is directly followed by a wait on MCKRDY. |
| SystemClock.ClockPublishedLast | boards/sam4s-xpld/system_sam4s.c:51 | SystemCoreClock is stored exactly once, by the last step, with 12 MHz. |
| SystemClock.UnfinishedRunKeepsClock | boards/sam4s-xpld/system_sam4s.c:30-51 | A run that stops before the end of the plan leaves SystemCoreClock as it was. |
| SystemClock.CompletedRunState | boards/sam4s-xpld/system_sam4s.c:20-51 | After a complete run: both present flash controllers have FWS(5) (EFC1 unchanged if absent); the crystal is selected; PLLB is MULB(29), PLLBCOUNT(1), DIVB(3); PMC_MCKR is PRES_CLK_1 with CSS_PLLB_CLK; SystemCoreClock is 12 MHz. |
| SystemClock.ClockController.constructor | boards/sam4s-xpld/system_sam4s.c:11 | SystemCoreClock starts at 4 MHz, before anything is stored or read. |
| SystemClock.ClockController.Store | boards/sam4s-xpld/system_sam4s.c:21-51 | One register store: exactly the stored register changes, and the store is appended to the bus log. |
| SystemClock.ClockController.Await | boards/sam4s-xpld/system_sam4s.c:30 | The busy-wait returns if and only if a remaining read shows the bit. It then consumes reads up to and including that one, and otherwise all of them. |
| SystemClock.ClockController.StoreThenAwait | boards/sam4s-xpld/system_sam4s.c:34-35 | A store followed by the wait on its acknowledging bit. It either completes both or stops at the wait. |
| SystemClock.ClockController.SetFlashWaitStates | boards/sam4s-xpld/system_sam4s.c:20-24 | The flash-mode stores of the plan are done. CKGR_MOR and PMC_MCKR are untouched. |
| SystemClock.ClockController.StartOscillator | boards/sam4s-xpld/system_sam4s.c:27-31 | The oscillator-start steps of the plan are done, or the run stops at MOSCXTS. PMC_MCKR is untouched. |
| SystemClock.ClockController.SwitchToCrystal | boards/sam4s-xpld/system_sam4s.c:34-38 | The crystal-select and first master-clock steps are done, or the run stops at their wait. |
| SystemClock.ClockController.SwitchToPllb | boards/sam4s-xpld/system_sam4s.c:41-51 | The PLLB and final master-clock steps and the clock publication are done, or the run stops at their wait. |
| SystemClock.ClockController.BringUp | boards/sam4s-xpld/system_sam4s.c:18-52 | The whole plan is done, or the run stops at a wait that is the run's end. |
| SystemClock.ClockController.SystemInit | boards/sam4s-xpld/system_sam4s.c:18-52 | The bus log grows by exactly the prefix of the plan that the run reaches on the status script. The registers are that prefix applied to their entry values. It returns if and only if the whole plan runs, leaving 12 MHz and CSS_PLLB_CLK. Otherwise it is stuck at a wait whose bit shows in no read from where that wait began, and SystemCoreClock keeps its value. |
| Startup.CopyWords | cpu/sam4s/startup.c:59-61 | The word-by-word copy writes only the destination words. |
| Startup.CopyWordsCopies | cpu/sam4s/startup.c:59-61 | When the destination lies below the source, or beyond the end of the image, every destination word holds its image word. |
| Startup.CopyWordsInPlace | cpu/sam4s/startup.c:58 | Copying a region onto itself leaves memory unchanged. |
| Startup.OverlappingCopySmears | cpu/sam4s/startup.c:59-61 | For every image length and position: when the destination starts one word into its own image, every destination word receives the image's first word, so the image is not reproduced. |
| Startup.DataLoaded | cpu/sam4s/startup.c:54-62 | The data-load step changes no word outside the data section. When the copy is forward-safe, every data word holds its image word. |
| Startup.DataLoadGuardSkipsOnlyNoOps | cpu/sam4s/startup.c:58 | The data-load step always equals the plain copy of the image. The guard skips only copies that change nothing: an empty section, or an image already in place. |
| Startup.ZeroWords | cpu/sam4s/startup.c:65-69 | Words in the range become 0 and all others keep their value. An empty range writes nothing. |
| Startup.InitialisedMemory | cpu/sam4s/startup.c:54-69 | After both loops, no word outside the data and BSS sections has changed, and every BSS word is 0. |
| Startup.MemoryInitialisation | cpu/sam4s/startup.c:54-69 | No word outside the data and BSS sections changes, and every BSS word is 0. When the copy is forward-safe, each data word outside the BSS holds its image word. When the copy is skipped, only the BSS changes. An empty BSS writes nothing after the copy. |
| Startup.LoadData | cpu/sam4s/startup.c:54-62 | The two-pointer loop leaves memory equal to the data-load step of the specification. |
| Startup.ClearBss | cpu/sam4s/startup.c:64-69 | The zeroing loop leaves memory equal to zeroing the BSS range. |
| Startup.InitialiseMemory | cpu/sam4s/startup.c:54-69 | The data load followed by the BSS clear leaves memory equal to the specification of both steps. |
| Startup.RunBoardInit | boards/sam4s-xpld/board.c:30-33 | `board_init` runs SystemInit and reports memory as it found it, unchanged. The bus log grows by exactly the prefix of the clock plan that the run reaches on the status script. The registers are that prefix applied to their entry values, and the read count is the run's. It returns if and only if the plan completes, with SystemCoreClock at 12 MHz and CSS_PLLB_CLK. Otherwise it is stuck at a wait whose bit shows in no read from where that wait began, and SystemCoreClock is unchanged. |
| Startup.ResetHandler | cpu/sam4s/startup.c:52-77 | The steps run in order: data load, BSS clear, `board_init` (SystemInit), `__libc_init_array`, `kernel_init`, each once. The memory that `board_init` finds when called is the initialised memory, and memory is not changed after. The clock's bus log, registers and read count are those of the prefix of the clock plan that the run reaches. The kernel is reached if and only if the whole plan runs: then the registers are the whole plan applied to their entry values, with SystemCoreClock at 12 MHz and CSS_PLLB_CLK. Otherwise the trace ends at `board_init`, the boot is hung at the wait the plan has at that point, and SystemCoreClock is unchanged. |

## Left out

- `core_panic`, `kernel_init` and `__libc_init_array` are outside this model. They appear only as recorded outcomes: the `Halt` behaviour, and the `KernelInit` and `LibcInitArray` steps. `kernel_init` and `core_panic` never return in the source; the model ends the boot at them.
- `board_init` beyond its first call (`boards/sam4s-xpld/board.c:33`) is left out:
  - `cpu_init` is not part of this model.
  - `led_init` is five write-only PIO register stores.
  - `board_init` is modelled as `Startup.RunBoardInit`, which runs `SystemInit`.
- Bit encodings of `CKGR_MOR_*`, `PMC_MCKR_*`, `CKGR_PLLBR_*`, `EEFC_FMR_FWS` and `PMC_SR_*`: `sam4s16c.h` is not part of this model.
  - Registers are records of named fields.
  - `PMC_MCKR`'s bits other than CSS and PRES are one abstract `otherBits` value.
  - PLL output frequencies are not derived.
- SystemClock.ClockController.Await: a poll that never sees its bit is unbounded in the source. The model stops it when a finite script of status reads runs out. The source's hang is therefore modelled as the outcome `Stuck(bit)`, not as non-termination.
- Linker mechanics are left out:
  - placement in `.vectors`;
  - real addresses;
  - the byte addressing of `uint32_t *` (the model uses word addresses);
  - weak-symbol resolution. A strong definition elsewhere is an element of the override set; two strong definitions of one symbol are a link error and are not modelled.
- Startup.CopyWordsCopies: a partially overlapping copy whose destination lies inside the image above its start is modelled exactly. The exact image is proved only when the copy is forward-safe. The source does not check the overlap; `Startup.OverlappingCopySmears` shows what happens then.
- `SystemCoreClock` is an initialised global (`boards/sam4s-xpld/system_sam4s.c:11`). Its 4 MHz comes from the data image that the copy at `cpu/sam4s/startup.c:58-62` loads. The model keeps it in `ClockController`, outside the memory array, and its constructor sets 4 MHz. `Startup.ResetHandler` accepts a controller in any state, so the dependency of SystemInit's starting SystemCoreClock on the data load is not modelled. The order of memory initialisation before `board_init` is stated through the memory `RunBoardInit` finds.
- Startup.ResetHandler: `reset_handler` reads and writes memory beyond the array only if the linker layout is inconsistent. The model requires every word the loops touch to lie in memory (`Layout.FitsIn`).
- The timing of the `nop` spin loops is left out. Spinning is the outcome `Spin`.
- `SystemCoreClockUpdate` (`boards/sam4s-xpld/system_sam4s.c:57-59`) has an empty body and is not modelled.
- `F_CPU` and the rest of `board.h`: only `F_CPU` appears, as a constant. The LED macros and pin definitions are register I/O.
