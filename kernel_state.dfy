/** The kernel's lifecycle state and the global cell that holds it. */
module KernelStates {
  import opened Wrappers

  /** A console supplied by a platform driver. `output` is every string it
      has accepted; while `accepting` is false each write fails. */
  class Console {
    var output: seq<string>
    var accepting: bool

    constructor (accepting: bool)
      ensures output == [] && this.accepting == accepting
    {
      output := [];
      this.accepting := accepting;
    }

    /** `write_str(s)`: succeeds and records `s` exactly when accepting. */
    method WriteStr(s: string) returns (ok: bool)
      modifies this
      ensures ok == accepting && accepting == old(accepting)
      ensures output == old(output) + (if ok then [s] else [])
    {
      ok := accepting;
      if ok {
        output := output + [s];
      }
    }
  }

  /** `Kernel`: only the console reference is kept. */
  datatype Kernel = Kernel(console: Option<Console>)

  /** `KernelArgs`, what the entry point hands to `Kernel::init`. */
  datatype KernelArgs = KernelArgs(console: Option<Console>)

  datatype KernelState = Uninit | Initializing(early: Option<Console>) | Ready(kernel: Kernel) {

    /** `console()`: none before initialisation starts, then the console
        recorded by the current state. */
    function GetConsole(): Option<Console> {
      match this
      case Uninit => None
      case Initializing(console) => console
      case Ready(kernel) => kernel.console
    }

    /** `is_ready()`. */
    predicate IsReady() {
      Ready?
    }

    /** `as_ready()`: the kernel; any other state panics ("Kernel is not
        ready"), so callers must hold a ready state. */
    function AsReady(): Kernel
      requires IsReady()
    {
      match this
      case Ready(kernel) => kernel
    }

    /** `try_as_ready()`. */
    function TryAsReady(): Option<Kernel> {
      match this
      case Ready(kernel) => Some(kernel)
      case _ => None
    }
  }

  /** The three accessors agree: `try_as_ready` succeeds exactly on ready
      states, and then yields what `as_ready` yields. */
  lemma ReadyAccessorsAgree(s: KernelState)
    ensures s.TryAsReady().Some? <==> s.IsReady()
    ensures s.IsReady() ==> s.TryAsReady() == Some(s.AsReady())
    ensures s.IsReady() ==> s.GetConsole() == s.AsReady().console
  {
  }

  /** The console objects an optional console reference points to. */
  function ConsoleSet(console: Option<Console>): set<Console> {
    match console
    case Some(c) => {c}
    case None => {}
  }

  /** The consoles a print in state `s` may write to. */
  function Sinks(s: KernelState): set<Console> {
    ConsoleSet(s.GetConsole())
  }

  /** `KernelCell`: the global holding the current state. */
  class KernelCell {
    var state: KernelState

    /** `KernelCell::new()`: starts uninitialised. */
    constructor ()
      ensures state == Uninit
    {
      state := Uninit;
    }

    /** `get()`: the state the cell holds. */
    function Get(): (s: KernelState)
      reads this
      ensures s == state
    {
      state
    }

    /** `promote(s)`: overwrite the whole state with `s`; the next `get`
        returns exactly `s`. */
    method Promote(s: KernelState)
      modifies this
      ensures Get() == s
    {
      state := s;
    }
  }
}
