/** The interrupt-safe spin lock, as seen from one execution context.
    The atomic flag becomes a boolean field and the CPU is the `Core` passed
    to each operation; cross-core contention is not modelled. */
module SpinLocks {
  import opened Cpu

  class SpinLock<T> {
    /** The protected value. */
    var data: T
    /** The `lock` flag: true while some guard is alive. */
    var held: bool

    /** `SpinLock::new(data)`: unlocked, holding `data`. */
    constructor (data: T)
      ensures this.data == data && !held
    {
      this.data := data;
      held := false;
    }

    /** `compare_exchange(false, true)` on the flag: succeeds exactly when the
        flag was clear, and leaves it set either way. The lock only ever tries
        this with IRQs masked on the calling core. */
    method CompareExchange(cpu: Core) returns (swapped: bool)
      requires IrqsMasked(cpu.daif)
      modifies this
      ensures swapped == !old(held)
      ensures held && data == old(data)
    {
      swapped := !held;
      held := true;
    }

    /** `lock`: mask interrupts first, keeping the previous DAIF in the guard,
        then spin until the flag is taken. Taking a lock already held by the
        same context spins for ever, so the caller must not. */
    method Lock(cpu: Core) returns (guard: Guard<T>)
      requires !held
      modifies this, cpu
      ensures held && data == old(data)
      ensures guard.lock == this
      ensures guard.interruptState == old(cpu.daif)
      ensures cpu.daif == Masked(old(cpu.daif))
    {
      var interruptState := cpu.DisableInterrupts();
      var acquired := false;
      while !acquired
        invariant acquired == held
        invariant data == old(data)
        invariant cpu.daif == Masked(old(cpu.daif))
        decreases !acquired
      {
        acquired := CompareExchange(cpu);
      }
      guard := Guard(this, interruptState);
    }

    /** `lock_with(f)`: lock, let `f` update the value and compute a result,
        then drop the guard. `f` is given as a function from the old value to
        the new value and the result. */
    method LockWith<R>(cpu: Core, f: T -> (T, R)) returns (r: R)
      requires !held
      modifies this, cpu
      ensures (data, r) == f(old(data))
      ensures !held
      ensures cpu.daif == old(cpu.daif)
    {
      var guard := Lock(cpu);
      var (updated, result) := f(guard.Deref());
      guard.DerefMut(updated);
      r := result;
      guard.Drop(cpu);
    }

    /** The flag's `store(false)`: clears it, with IRQs still masked. */
    method Release(cpu: Core)
      requires IrqsMasked(cpu.daif)
      modifies this
      ensures !held && data == old(data)
    {
      held := false;
    }
  }

  /** `SpinLockGuard`: the lock it holds and the DAIF value seen before
      locking. */
  datatype Guard<T> = Guard(lock: SpinLock<T>, interruptState: InterruptState) {

    /** `*guard`: the protected value. */
    function Deref(): (v: T)
      reads lock
      ensures v == lock.data
    {
      lock.data
    }

    /** `*guard = value` through `deref_mut`: replaces the protected value and
        nothing else. */
    method DerefMut(value: T)
      modifies lock
      ensures lock.data == value && lock.held == old(lock.held)
    {
      lock.data := value;
    }

    /** Dropping the guard: clear the flag while IRQs are still masked, then
        write the saved DAIF back. */
    method Drop(cpu: Core)
      requires IrqsMasked(cpu.daif)
      modifies lock, cpu
      ensures !lock.held && lock.data == old(lock.data)
      ensures cpu.daif == interruptState
    {
      lock.Release(cpu);
      cpu.EnableInterrupts(interruptState);
    }
  }

  /** Two distinct locks taken one inside the other and released in reverse
      order: interrupts stay masked inside both critical sections, and the
      DAIF value afterwards is the one from before the first `lock`. */
  method Nested<T>(outer: SpinLock<T>, inner: SpinLock<T>, cpu: Core)
    returns (duringOuter: InterruptState, duringInner: InterruptState)
    requires outer != inner && !outer.held && !inner.held
    modifies outer, inner, cpu
    ensures IrqsMasked(duringOuter) && IrqsMasked(duringInner)
    ensures !outer.held && !inner.held
    ensures outer.data == old(outer.data) && inner.data == old(inner.data)
    ensures cpu.daif == old(cpu.daif)
  {
    var outerGuard := outer.Lock(cpu);
    duringOuter := cpu.daif;
    var innerGuard := inner.Lock(cpu);
    duringInner := cpu.daif;
    innerGuard.Drop(cpu);
    outerGuard.Drop(cpu);
  }
}
