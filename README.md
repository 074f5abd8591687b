# ratto kernel core, modelled in Dafny

ratto is an early bare-metal AArch64 kernel. This project models its
sequential core and proves properties of it:

- **Interrupt masking** (`Cpu`): the DAIF register of the calling core as a
  64-bit value; `disable_interrupts` returns it and sets the IRQ bit,
  `enable_interrupts` writes a saved value back.
- **SpinLock** (`SpinLocks`): the protected value and the `lock` flag as
  fields of a class; `lock` masks interrupts before taking the flag and keeps
  the old DAIF in the guard; dropping the guard clears the flag and restores
  that DAIF; `lock_with` is lock, update, drop.
- **OnceLock** (`OnceLocks`): an optional value inside a `SpinLock`;
  `get_or_init` fills it only when empty. A ghost counter records how often
  an initialiser runs, and pure functions describe any sequence of
  `get_or_init` calls.
- **Kernel lifecycle** (`KernelStates`, `Lifecycle`): `KernelState`
  (`Uninit`, `Initializing(console)`, `Ready(kernel)`), the global
  `KernelCell`, `Kernel::init`, `Kernel::run`, `Kernel::panic_dump`, and
  lemmas about any sequence of these calls.
- **Console output** (`Printing`): `print` writes only when the current
  state has a console; the lines of `klog!`, `kerr!` and `kraw!` for a
  literal message.
- **Boot memory map** (`Boot`): `parse_memory_map` writing three regions
  into the 16-slot static array, and `boot_info`.
- **Build tool** (`Xtask`): profile and architecture names, linker-script
  path handling, the cargo, objcopy and QEMU command lines, and which
  profile `run` builds.

A panic that the source raises on a runtime condition is a returned
`Panicked(message)` value (a panic never unwinds, so the model stops
there). A panic that only a programming error can reach is a `requires`:
`as_ready` on a state that is not ready. Re-locking a spin lock already held
by the same context does not panic but spins for ever; that call is
excluded by a `requires` too.
The architecture initialisation that `Kernel::init` calls is a boolean
parameter: it may succeed or fail. The hardware, the environment and
spawned processes are parameters too.

## Model

| member | source | states |
|---|---|---|
| Cpu.Core.DisableInterrupts | ratto-kernel/src/arch/aarch64/cpu.rs:10-22 | returns the DAIF value from before the call, and afterwards IRQs are masked with every other DAIF bit unchanged |
| Cpu.Core.EnableInterrupts | ratto-kernel/src/arch/aarch64/cpu.rs:24-32 | DAIF becomes exactly the value passed in |
| Cpu.DisableThenRestore | ratto-kernel/src/arch/aarch64/cpu.rs:10-32 | masked in between, and restoring the token gives back the exact earlier DAIF |
| Cpu.Masked | ratto-kernel/src/arch/aarch64/cpu.rs:14-15 | `msr daifset, #2` leaves IRQs masked, and changes nothing when they already were |
| Cpu.MaskedKeepsOtherBits | ratto-kernel/src/arch/aarch64/cpu.rs:14-15 | `msr daifset, #2` changes no DAIF bit other than the IRQ mask |
| SpinLocks.SpinLock.constructor | ratto-kernel/src/sync/spin_lock.rs:15-21 | a new lock is free and holds the given value |
| SpinLocks.SpinLock.CompareExchange | ratto-kernel/src/sync/spin_lock.rs:27-30 | callable only with IRQs masked; succeeds exactly when the flag was clear; the flag is set afterwards and the value untouched |
| SpinLocks.SpinLock.Lock | ratto-kernel/src/sync/spin_lock.rs:25-41 | on a free lock: IRQs are masked before the flag is touched (the flag operation requires it), then the flag is set, the value is unchanged, and the guard holds this lock and the DAIF from before the call |
| SpinLocks.SpinLock.LockWith | ratto-kernel/src/sync/spin_lock.rs:43-49 | returns `f`'s result, leaves the value as `f` made it, and on return the flag and DAIF are as before the call |
| SpinLocks.Guard.DerefMut | ratto-kernel/src/sync/spin_lock.rs:66-70 | a write through the guard replaces the protected value and leaves the flag alone |
| SpinLocks.Guard.Drop | ratto-kernel/src/sync/spin_lock.rs:72-77 | dropping the guard clears the flag while IRQs are still masked (called only with them masked), keeps the value, and then restores exactly the DAIF saved by `lock` |
| SpinLocks.SpinLock.Release | ratto-kernel/src/sync/spin_lock.rs:74 | the flag is cleared only with IRQs masked, and the value is kept |
| SpinLocks.Guard.Deref | ratto-kernel/src/sync/spin_lock.rs:58-64 | `*guard` is the protected value |
| SpinLocks.Nested | ratto-kernel/src/sync/spin_lock.rs:25-77 | two locks taken one inside the other and dropped in reverse: IRQs masked inside both, DAIF afterwards equals DAIF before the first lock |
| OnceLocks.OnceLock.constructor | ratto-core/src/sync/once_lock.rs:8-12 | a new cell is empty and no initialiser has run |
| OnceLocks.OnceLock.Get | ratto-core/src/sync/once_lock.rs:14-23 | returns `None` on an empty cell and the stored value otherwise; the cell, the flag and DAIF are unchanged |
| OnceLocks.OnceLock.GetMut | ratto-core/src/sync/once_lock.rs:25-34 | `None` and no change on an empty cell; otherwise the caller's update lands in the cell, which stays filled |
| OnceLocks.OnceLock.GetOrInit | ratto-core/src/sync/once_lock.rs:36-47 | an empty cell takes `init()` and returns it; a filled cell returns its value and `init` is not run; the lock is released and DAIF restored |
| OnceLocks.ObserversAgree | ratto-core/src/sync/once_lock.rs:36-47 | over any number of `get_or_init` calls every caller gets the same value: the stored one, or else the first caller's |
| OnceLocks.InitRunsAtMostOnce | ratto-core/src/sync/once_lock.rs:40-43 | over any number of calls the initialiser runs once if the cell started empty, otherwise never |
| OnceLocks.GetOrInitIdempotent | ratto-core/src/sync/once_lock.rs:36-47 | `get_or_init(f); get_or_init(g)` returns the first call's value twice |
| OnceLocks.GetOrInitTwice | ratto-core/src/sync/once_lock.rs:36-47 | on a real cell, two calls return the same value and at most one initialiser has run |
| KernelStates.Console.WriteStr | ratto-kernel/src/console.rs:4 | a write that succeeds records the text; a failed write records nothing |
| KernelStates.ReadyAccessorsAgree | ratto-kernel/src/lib.rs:85-109 | `try_as_ready` is `Some` exactly when `is_ready`, and then equals `as_ready`, whose console is the state's console |
| KernelStates.KernelCell.constructor | ratto-kernel/src/lib.rs:117-121 | a new cell holds `Uninit` |
| KernelStates.KernelCell.Get | ratto-kernel/src/lib.rs:123-125 | `get` returns the stored state |
| KernelStates.KernelCell.Promote | ratto-kernel/src/lib.rs:127-132 | the whole state is replaced, and the next `get` returns exactly the promoted state |
| Printing.CurrentConsole | ratto-kernel/src/print.rs:9-11 | there is no console before initialisation starts |
| Printing.Print | ratto-kernel/src/print.rs:3-7 | the text reaches the current console exactly when there is one and it accepts writes; a failed write is ignored; nothing else changes |
| Printing.LinesRoundTrip | ratto-kernel/src/print.rs:13-60 | `klog!`, `kerr!` and `kraw!` lines end in one newline, and the level and message can be read back from them (for `kraw!`, only when the message does not itself start with `[DBG] ` or `[ERR] `) |
| Lifecycle.InitContract | ratto-kernel/src/lib.rs:31-49 | `init` returns iff called in `Uninit` and the architecture init succeeds; a repeat call panics with "called more than once" and changes nothing; a failed architecture init leaves `Initializing(console)`; the given console survives |
| Lifecycle.Init | ratto-kernel/src/lib.rs:31-49 | the state and outcome follow that transition, the architecture init runs only while the state is `Initializing(args.console)`, and the console receives the two log lines (or only the first, when architecture init fails) |
| Lifecycle.TryArchInit | ratto-kernel/src/lib.rs:37-41 | the architecture init may only be called once the state is `Initializing` with the given console, and reports the given success |
| Lifecycle.RunNeverReturns | ratto-kernel/src/lib.rs:51-59 | `run` always panics, with "called before init" exactly when not ready, and changes no state |
| Lifecycle.Run | ratto-kernel/src/lib.rs:51-59 | `run` panics in every state and logs the main-loop line only when ready |
| Lifecycle.PanicDump | ratto-kernel/src/lib.rs:61-70 | in any state: no state change; with a console, the banner, location, reason and state lines; without one, no output |
| Lifecycle.ExecuteMonotone | ratto-kernel/src/lib.rs:31-59 | no sequence of lifecycle calls moves the state backwards |
| Lifecycle.ExecuteKeepsConsole | ratto-kernel/src/lib.rs:37-47 | once initialisation has started, no call sequence changes the console or returns to `Uninit` |
| Lifecycle.ReadyIsFinal | ratto-kernel/src/lib.rs:32-58 | no call sequence leaves `Ready` |
| Lifecycle.InitCompletesAtMostOnce | ratto-kernel/src/lib.rs:32-35 | over any call sequence `init` completes at most once, and never once initialisation has started |
| Lifecycle.ReadyNoMoreInits | ratto-kernel/src/lib.rs:32-35 | after `Uninit` no further `init` call completes |
| Lifecycle.ReadyKernelHasFirstConsole | ratto-kernel/src/lib.rs:37-47 | a run from `Uninit` that ends `Ready` holds the console passed to its first `init` |
| Lifecycle.BootWithoutConsole | ratto-kernel/src/lib.rs:31-70 | booting with no console ends `Ready` with no console, and a later `panic_dump` neither fails nor prints |
| Boot.ChainedIsSortedAndDisjoint | ratto-entry/src/arch/aarch64/boot.rs:55-77 | regions laid out in ascending order, each ending before the next starts, are sorted and pairwise non-overlapping |
| Boot.ParsedRegionsWellFormed | ratto-entry/src/arch/aarch64/boot.rs:55-77 | the three reported regions are sorted, pairwise disjoint, fit in u64, and end at 0x3B000000, 0x40000000 and 0x100000000 |
| Boot.FromPhysAddr | ratto-entry/src/arch/aarch64/boot.rs:31-35 | always `Some`, with the given base address |
| Boot.ParseMemoryMap | ratto-entry/src/arch/aarch64/boot.rs:48-80 | returns exactly the three regions in order, no more than the 16 slots; slots 0..2 hold them, slots 3..15 keep their old contents; the map is well formed |
| Boot.CollectBootInfo | ratto-entry/src/arch/aarch64/boot.rs:82-107 | panics with "DTB pointer not set" iff the pointer is 0, leaving the array untouched; otherwise the parsed, well-formed map and the linker-symbol kernel range, with the map held in the array's first slots and the other slots unchanged |
| Boot.NewMemoryRegions | ratto-entry/src/arch/aarch64/boot.rs:17-23 | the static array starts as 16 slots, each an empty reserved region at 0 |
| Xtask.ProfileNamesInjective | ratto-xtask/src/main.rs:60-65 | "debug" and "release" identify their profile |
| Xtask.ArchitectureNamesInjective | ratto-xtask/src/main.rs:135-150 | target triples and display names identify their architecture |
| Xtask.JoinNameSplits | ratto-xtask/src/main.rs:231-239 | `parent` and `file_name` of `base.join(name)` give back `base` and `name` |
| Xtask.QualifyLdPath | ratto-xtask/src/main.rs:225-229 | an absolute linker-script path is used unchanged, a relative one is joined under the root; this agrees with `join` |
| Xtask.SplitLdPath | ratto-xtask/src/main.rs:231-241 | succeeds iff the path ends in a file name, and joining the parts gives the path back; otherwise the directory or file-name error |
| Xtask.CargoArgsFlags | ratto-xtask/src/main.rs:250-262 | always `build --package ratto-entry --target <triple>`; `--release` iff a release build; `--features <provider>` iff a provider was given |
| Xtask.CargoCommand | ratto-xtask/src/main.rs:248-271 | the arguments built one by one are those, with `RUSTFLAGS` naming the linker-script directory and file |
| Xtask.KernelPaths | ratto-xtask/src/main.rs:281-290 | the ELF is `root/target/<triple>/<profile>/ratto-entry`, and the binary always exists as its sibling `ratto-kernel.bin` |
| Xtask.BuildKernel | ratto-xtask/src/main.rs:212-305 | succeeds iff the root is known, the script path splits, the target is AArch64 and both tools succeed; x86_64 reaches `todo!()`; each failure reports its own message (no workspace root, the split's directory or file-name error, cargo failed, objcopy failed); the commands issued are the cargo and objcopy lines; the result is the binary path |
| Xtask.QemuArgsLayout | ratto-xtask/src/main.rs:85-110 | `-M <machine>` first exactly when configured, then the semihosting switches, the user arguments, and the fixed `-kernel` and console switches |
| Xtask.RunWithKernel | ratto-xtask/src/main.rs:74-117 | AArch64 launches QEMU with those arguments, failing only if it cannot start; x86_64 reaches `todo!()` |
| Xtask.TryMain | ratto-xtask/src/main.rs:167-196 | no command succeeds with nothing run; a config load failure is returned; `Build` uses the chosen profile and succeeds, reaches `todo!()` or fails with the same message exactly as `build_kernel` does; `Run` always builds a debug image, whatever profile was parsed, propagates the build's failure, and succeeds iff the build succeeds and QEMU starts, running that image |

## Left out

- Inline assembly: the `mrs`/`msr` DAIF accesses become updates of `Core.daif`; `wait_forever` and the `wfe` loop are not modelled.
- Concurrency: the atomic flag, memory orderings and other cores are not modelled; the model is one execution context.
- SpinLocks.SpinLock.Lock: `compare_exchange_weak` is modelled as a compare-and-swap without spurious failure, and the inner relaxed-read spin is not modelled, because with the lock free on the only context the first attempt always succeeds; re-locking a held lock (which spins for ever) is excluded by `requires !held`.
- OnceLocks.OnceLock.GetMut: the `&mut T` the source hands out lives past the guard; the model applies the caller's update while the lock is still held, so writes after release and aliasing are not captured.
- OnceLocks.OnceLock.Get: the source returns a reference that outlives the guard; the model returns the value.
- The `Console` trait is a class that records accepted strings; the `core::fmt` adapter and formatting of arguments are not modelled. Each line the model prints, including the formatted `At:`, `Reason:` and `Kernel State:` lines of `Lifecycle.PanicDump`, is recorded as one `output` entry; the source hands such a line to `write_str` in several pieces, and the first piece the console refuses ends the line, so a partly written line is not captured.
- Lifecycle.PanicDump: the `{:#?}` rendering of `KernelState` is reduced to the variant name, and the panic location and message are taken as already rendered strings.
- Boot.CollectBootInfo: the returned memory map is a copy of the written slots (the contract ties it to the array's first slots), not a borrow of the static array; later writes through the array would not show in it.
- Boot.CollectBootInfo: its two `klog!` lines carry hex-formatted arguments and are not modelled; the DTB pointer and the linker symbols are parameters.
- `arch::Current::try_init()`, which `Kernel::init` calls, does not resolve to anything in the source; it is a boolean parameter. `ArchImpl`, `init_memory`, the memory traits, their `todo!()` stubs and `kernel_init` are not part of this model.
- Device and emulator I/O (the UART, QEMU exit) are not part of this model.
- Xtask: clap parsing, the `println!` for a missing command, reading and RON-parsing the configuration, environment lookups and process spawning are parameters (`LoadResult`, `Host`); `unwrap` panics when a process cannot be spawned are not modelled; paths are already split into components.
- Xtask.BuildKernel: the "Unable to determine kernel.bin path" error is not modelled, because the ELF path always has a parent directory (`Xtask.KernelPaths`), so the source can never return it.
