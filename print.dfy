/** Console output: `print`, `console` and the lines built by the `klog!`,
    `kerr!` and `kraw!` macros for a literal message. */
module Printing {
  import opened Wrappers
  import opened KernelStates

  const DebugTag := "[DBG] "
  const ErrorTag := "[ERR] "

  /** `klog!(msg)`. */
  function DebugLine(msg: string): string {
    DebugTag + msg + "\n"
  }

  /** `kerr!(msg)`. */
  function ErrorLine(msg: string): string {
    ErrorTag + msg + "\n"
  }

  /** `kraw!(msg)`. */
  function RawLine(msg: string): string {
    msg + "\n"
  }

  datatype Level = Debug | Error | Raw

  /** Reads a printed line back: its level and message. A line without the
      trailing newline is not one of ours. */
  function ParseLine(line: string): Option<(Level, string)> {
    if |line| == 0 || line[|line| - 1] != '\n' then None
    else
      var body := line[..|line| - 1];
      if |body| >= 6 && body[..6] == DebugTag then Some((Debug, body[6..]))
      else if |body| >= 6 && body[..6] == ErrorTag then Some((Error, body[6..]))
      else Some((Raw, body))
  }

  /** A message that `kraw!` would print but that reads as tagged. */
  predicate LooksTagged(msg: string) {
    |msg| >= 6 && (msg[..6] == DebugTag || msg[..6] == ErrorTag)
  }

  /** Every macro line ends in one newline after the message, and the level
      and the message can be read back from it (for `kraw!`, as long as the
      message does not itself start with a tag). */
  lemma {:induction false} LinesRoundTrip(msg: string)
    ensures ParseLine(DebugLine(msg)) == Some((Debug, msg))
    ensures ParseLine(ErrorLine(msg)) == Some((Error, msg))
    ensures !LooksTagged(msg) ==> ParseLine(RawLine(msg)) == Some((Raw, msg))
  {
    var d := DebugLine(msg);
    assert d[..|d| - 1] == DebugTag + msg;
    assert (DebugTag + msg)[..6] == DebugTag;
    assert (DebugTag + msg)[6..] == msg;
    var e := ErrorLine(msg);
    assert e[..|e| - 1] == ErrorTag + msg;
    assert (ErrorTag + msg)[..6] == ErrorTag;
    assert (ErrorTag + msg)[6..] == msg;
    assert DebugTag[1] != ErrorTag[1];
    var r := RawLine(msg);
    assert r[..|r| - 1] == msg;
  }

  /** `console()`: the current state's console; there is none before
      initialisation starts. */
  function CurrentConsole(cell: KernelCell): (r: Option<Console>)
    reads cell
    ensures cell.Get().Uninit? ==> r == None
  {
    cell.Get().GetConsole()
  }

  /** `print`: hands `text` to the current console if there is one; a failed
      write is ignored, and nothing else changes. */
  method Print(cell: KernelCell, text: string)
    modifies Sinks(cell.state)
    ensures forall c :: c in Sinks(cell.state) ==>
      c.accepting == old(c.accepting) &&
      c.output == old(c.output) + (if old(c.accepting) then [text] else [])
  {
    match CurrentConsole(cell) {
      case Some(console) =>
        var _ := console.WriteStr(text);
      case None =>
    }
  }
}
