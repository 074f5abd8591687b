/** `Kernel::init`, `Kernel::run` and `Kernel::panic_dump`: the lifecycle
    Uninit -> Initializing(console) -> Ready(kernel) over the global cell. */
module Lifecycle {
  import opened Wrappers
  import opened KernelStates
  import opened Printing

  const InitTwice := "Kernel::init() called more than once"
  const ArchInitFailed := "Failed architecture initialization"
  const RunBeforeInit := "Kernel::run() called before Kernel::init()"
  const MainLoopMissing := "Unimplemented: Kernel main loop"

  const InitStarted := "Kernel initialization started..."
  const InitCompleted := "Kernel initialization completed."
  const MainLoopStarting := "Kernel main loop starting..."
  const PanicBanner := "!!! Kernel panic !!!"

  /** What `panic_dump` reads from `PanicInfo`: the rendered location, if
      any, and the rendered message. */
  datatype PanicInfo = PanicInfo(location: Option<string>, message: string)

  /** One call into the lifecycle API. `archInitSucceeds` is the result of
      the architecture initialisation that `init` runs. */
  datatype Call =
    | InitCall(args: KernelArgs, archInitSucceeds: bool)
    | RunCall
    | PanicDumpCall(info: PanicInfo)

  /** Position in the fixed order of states. */
  function Rank(s: KernelState): nat {
    match s
    case Uninit => 0
    case Initializing(_) => 1
    case Ready(_) => 2
  }

  /** The state after `call` from `s`, and how the call ends. */
  function Step(s: KernelState, call: Call): (KernelState, Outcome<()>) {
    match call
    case InitCall(args, archInitSucceeds) =>
      if !s.Uninit? then (s, Panicked(InitTwice))
      else if !archInitSucceeds then (Initializing(args.console), Panicked(ArchInitFailed))
      else (Ready(Kernel(args.console)), Returned(()))
    case RunCall =>
      (s, Panicked(if s.IsReady() then MainLoopMissing else RunBeforeInit))
    case PanicDumpCall(_) =>
      (s, Returned(()))
  }

  /** `init` returns only from `Uninit` with a successful architecture
      initialisation; a second `init` panics and changes nothing; from
      `Uninit` the console given survives both promotions. */
  lemma InitContract(s: KernelState, args: KernelArgs, archInitSucceeds: bool)
    ensures var (t, outcome) := Step(s, InitCall(args, archInitSucceeds));
      && (outcome.Returned? <==> s.Uninit? && archInitSucceeds)
      && (!s.Uninit? ==> t == s && outcome == Panicked(InitTwice))
      && (s.Uninit? && !archInitSucceeds ==> t == Initializing(args.console) && outcome == Panicked(ArchInitFailed))
      && (s.Uninit? ==> t.GetConsole() == args.console)
      && (outcome.Returned? ==> t.IsReady() && t.AsReady().console == args.console)
  {
  }

  /** `run` never returns, and panics with "called before init" exactly when
      the kernel is not ready. */
  lemma RunNeverReturns(s: KernelState)
    ensures Step(s, RunCall).0 == s
    ensures Step(s, RunCall).1.Panicked?
    ensures Step(s, RunCall).1.message == RunBeforeInit <==> !s.IsReady()
  {
  }

  /** Runs `calls` from `s`; the first panic halts the core, so nothing after
      it runs. */
  function Execute(s: KernelState, calls: seq<Call>): KernelState
    decreases |calls|
  {
    if calls == [] then s
    else
      var (next, outcome) := Step(s, calls[0]);
      if outcome.Panicked? then next else Execute(next, calls[1..])
  }

  /** How many `init` calls in `calls` return normally. */
  function CompletedInits(s: KernelState, calls: seq<Call>): nat
    decreases |calls|
  {
    if calls == [] then 0
    else
      var (next, outcome) := Step(s, calls[0]);
      var counted := if calls[0].InitCall? && outcome.Returned? then 1 else 0;
      if outcome.Panicked? then counted else counted + CompletedInits(next, calls[1..])
  }

  /** The console given to the first `init` call in `calls`, if any. */
  function FirstInitConsole(calls: seq<Call>): Option<Option<Console>>
    decreases |calls|
  {
    if calls == [] then None
    else if calls[0].InitCall? then Some(calls[0].args.console)
    else FirstInitConsole(calls[1..])
  }

  /** No call sequence moves the state backwards. */
  lemma {:induction false} ExecuteMonotone(s: KernelState, calls: seq<Call>)
    ensures Rank(Execute(s, calls)) >= Rank(s)
    decreases |calls|
  {
    if calls != [] {
      var (next, outcome) := Step(s, calls[0]);
      if outcome.Returned? {
        ExecuteMonotone(next, calls[1..]);
      }
    }
  }

  /** Once initialisation has started, the console is fixed for good. */
  lemma {:induction false} ExecuteKeepsConsole(s: KernelState, calls: seq<Call>)
    requires !s.Uninit?
    ensures !Execute(s, calls).Uninit?
    ensures Execute(s, calls).GetConsole() == s.GetConsole()
    decreases |calls|
  {
    if calls != [] {
      var (next, outcome) := Step(s, calls[0]);
      if outcome.Returned? {
        ExecuteKeepsConsole(next, calls[1..]);
      }
    }
  }

  /** `Ready` is final: no call sequence leaves it. */
  lemma {:induction false} ReadyIsFinal(s: KernelState, calls: seq<Call>)
    requires s.Ready?
    ensures Execute(s, calls) == s
    decreases |calls|
  {
    if calls != [] {
      var (next, outcome) := Step(s, calls[0]);
      if outcome.Returned? {
        ReadyIsFinal(next, calls[1..]);
      }
    }
  }

  /** Initialisation completes at most once over any run, and never again
      once it has started. */
  lemma {:induction false} InitCompletesAtMostOnce(s: KernelState, calls: seq<Call>)
    ensures CompletedInits(s, calls) <= (if s.Uninit? then 1 else 0)
    decreases |calls|
  {
    if calls != [] {
      var (next, outcome) := Step(s, calls[0]);
      if outcome.Returned? {
        InitCompletesAtMostOnce(next, calls[1..]);
        if calls[0].InitCall? {
          ReadyNoMoreInits(next, calls[1..]);
        }
      }
    }
  }

  lemma {:induction false} ReadyNoMoreInits(s: KernelState, calls: seq<Call>)
    requires !s.Uninit?
    ensures CompletedInits(s, calls) == 0
    decreases |calls|
  {
    if calls != [] {
      var (next, outcome) := Step(s, calls[0]);
      if outcome.Returned? {
        ReadyNoMoreInits(next, calls[1..]);
      }
    }
  }

  /** A run from `Uninit` that ends `Ready` went through an `init` call, and
      the ready kernel holds the console given to the first one. */
  lemma {:induction false} ReadyKernelHasFirstConsole(calls: seq<Call>)
    requires Execute(Uninit, calls).Ready?
    ensures FirstInitConsole(calls).Some?
    ensures Execute(Uninit, calls).AsReady().console == FirstInitConsole(calls).value
    decreases |calls|
  {
    var (next, outcome) := Step(Uninit, calls[0]);
    if calls[0].InitCall? {
      ReadyIsFinal(next, calls[1..]);
    } else {
      ReadyKernelHasFirstConsole(calls[1..]);
    }
  }

  /** The lines `init` prints from `Uninit`. */
  function InitLog(archInitSucceeds: bool): seq<string> {
    [DebugLine(InitStarted)] + (if archInitSucceeds then [DebugLine(InitCompleted)] else [])
  }

  /** `arch::Current::try_init()`: the architecture initialisation, which
      runs only once the console is recorded as `Initializing(console)`, so
      that diagnostics during it can reach that console. Its success is a
      parameter. */
  method TryArchInit(cell: KernelCell, console: Option<Console>, succeeds: bool) returns (ok: bool)
    requires cell.state == Initializing(console)
    ensures ok == succeeds
  {
    ok := succeeds;
  }

  /** `Kernel::init(args)`. From `Uninit`: record the console, log, run the
      architecture initialisation (panicking if it fails), then promote to
      `Ready` with the same console and log again. From any other state:
      panic before touching anything. */
  method Init(cell: KernelCell, args: KernelArgs, archInitSucceeds: bool) returns (outcome: Outcome<()>)
    modifies cell, ConsoleSet(args.console)
    ensures (cell.state, outcome) == Step(old(cell.state), InitCall(args, archInitSucceeds))
    ensures args.console.Some? ==>
      var c := args.console.value;
      && c.accepting == old(c.accepting)
      && c.output == old(c.output) +
           (if old(cell.state).Uninit? && old(c.accepting) then InitLog(archInitSucceeds) else [])
  {
    if !cell.Get().Uninit? {
      return Panicked(InitTwice);
    }
    cell.Promote(Initializing(args.console));
    Print(cell, DebugLine(InitStarted));
    var archOk := TryArchInit(cell, args.console, archInitSucceeds);
    if !archOk {
      return Panicked(ArchInitFailed);
    }
    var kernel := Kernel(args.console);
    cell.Promote(Ready(kernel));
    Print(cell, DebugLine(InitCompleted));
    return Returned(());
  }

  /** `Kernel::run()`: panics in every case; when ready it first logs that
      the main loop is starting. */
  method Run(cell: KernelCell) returns (outcome: Outcome<()>)
    modifies Sinks(cell.state)
    ensures outcome == Step(cell.state, RunCall).1
    ensures outcome.Panicked?
    ensures forall c :: c in Sinks(cell.state) ==>
      && c.accepting == old(c.accepting)
      && c.output == old(c.output) +
           (if cell.state.IsReady() && old(c.accepting) then [DebugLine(MainLoopStarting)] else [])
  {
    if !cell.Get().IsReady() {
      return Panicked(RunBeforeInit);
    }
    Print(cell, DebugLine(MainLoopStarting));
    return Panicked(MainLoopMissing);
  }

  /** The name `panic_dump` shows for a state. */
  function StateName(s: KernelState): string {
    match s
    case Uninit => "Uninit"
    case Initializing(_) => "Initializing"
    case Ready(_) => "Ready"
  }

  /** The lines `panic_dump` prints in state `s`. */
  function DumpLines(info: PanicInfo, s: KernelState): seq<string> {
    [ErrorLine(PanicBanner)]
    + (match info.location case Some(at) => [RawLine("At: " + at)] case None => [])
    + [RawLine("Reason: " + info.message), RawLine("Kernel State: " + StateName(s))]
  }

  /** `Kernel::panic_dump(info)`: usable in any state; prints the dump to the
      current console if there is one, and changes no state. */
  method PanicDump(cell: KernelCell, info: PanicInfo)
    modifies Sinks(cell.state)
    ensures cell.state == old(cell.state)
    ensures forall c :: c in Sinks(cell.state) ==>
      && c.accepting == old(c.accepting)
      && c.output == old(c.output) + (if old(c.accepting) then DumpLines(info, cell.state) else [])
  {
    Print(cell, ErrorLine(PanicBanner));
    match info.location {
      case Some(at) =>
        Print(cell, RawLine("At: " + at));
      case None =>
    }
    Print(cell, RawLine("Reason: " + info.message));
    Print(cell, RawLine("Kernel State: " + StateName(cell.Get())));
  }

  /** Booting with no console: `init` completes, the kernel is ready with no
      console, and a later `panic_dump` neither fails nor prints. */
  method BootWithoutConsole(info: PanicInfo) returns (outcome: Outcome<()>, state: KernelState)
    ensures outcome == Returned(())
    ensures state == Ready(Kernel(None))
    ensures Sinks(state) == {}
  {
    var cell := new KernelCell();
    outcome := Init(cell, KernelArgs(None), true);
    PanicDump(cell, info);
    state := cell.Get();
  }
}
