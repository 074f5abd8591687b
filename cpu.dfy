/** The interrupt-masking half of the CPU abstraction for the AArch64 backend.
    The only CPU state modelled is the DAIF register; the instructions that
    read and write it are replaced by updates of a field. */
module Cpu {

  /** A snapshot of DAIF, the backend's `InterruptState` (a `u64`). */
  type InterruptState = bv64

  /** DAIF.I, the IRQ mask bit that `msr daifset, #2` sets. */
  const IrqBit: InterruptState := 0x80

  predicate IrqsMasked(s: InterruptState) {
    s & IrqBit != 0
  }

  /** The DAIF value after `msr daifset, #2` from `s`: IRQs masked, and no
      change at all when they already were. */
  function Masked(s: InterruptState): (m: InterruptState)
    ensures IrqsMasked(m)
    ensures IrqsMasked(s) ==> m == s
  {
    s | IrqBit
  }

  /** `msr daifset, #2` touches DAIF.I only: every other bit keeps its value. */
  lemma MaskedKeepsOtherBits(s: InterruptState)
    ensures Masked(s) & !IrqBit == s & !IrqBit
  {
    SetThenClearBit7(s);
  }

  /** Setting bit 7 and then clearing it leaves the other 63 bits as they were. */
  lemma SetThenClearBit7(s: bv64)
    ensures (s | 0x80) & !0x80 == s & !0x80
  {
  }

  /** The calling core. */
  class Core {
    var daif: InterruptState

    constructor (daif: InterruptState)
      ensures this.daif == daif
    {
      this.daif := daif;
    }

    /** `disable_interrupts`: return the current DAIF, then mask IRQs. */
    method DisableInterrupts() returns (saved: InterruptState)
      modifies this
      ensures saved == old(daif)
      ensures daif == Masked(old(daif))
      ensures IrqsMasked(daif) && daif & !IrqBit == old(daif) & !IrqBit
    {
      saved := daif;
      MaskedKeepsOtherBits(daif);
      daif := Masked(daif);
    }

    /** `enable_interrupts(flags)`: write `flags` back into DAIF. */
    method EnableInterrupts(flags: InterruptState)
      modifies this
      ensures daif == flags
    {
      daif := flags;
    }
  }

  /** Disabling and immediately restoring with the returned token gives back
      the exact DAIF value held before, whatever it was. */
  method DisableThenRestore(cpu: Core) returns (during: InterruptState)
    modifies cpu
    ensures IrqsMasked(during)
    ensures cpu.daif == old(cpu.daif)
  {
    var token := cpu.DisableInterrupts();
    during := cpu.daif;
    cpu.EnableInterrupts(token);
  }
}
