/** The write-once cell: an optional value behind a spin lock. Every
    operation takes the lock and drops the guard before returning. */
module OnceLocks {
  import opened Wrappers
  import opened Cpu
  import opened SpinLocks

  /** The cell after one `get_or_init` whose initialiser would yield
      `candidate`: an empty cell takes it, a filled cell keeps its value. */
  function Fill<T>(cell: Option<T>, candidate: T): Option<T> {
    if cell.None? then Some(candidate) else cell
  }

  /** What successive `get_or_init` calls return when the i-th initialiser
      would yield `candidates[i]`, starting from `cell`. */
  function Observed<T>(cell: Option<T>, candidates: seq<T>): seq<T>
    decreases |candidates|
  {
    if candidates == [] then []
    else
      var filled := Fill(cell, candidates[0]);
      [filled.value] + Observed(filled, candidates[1..])
  }

  /** How many of those calls run their initialiser. */
  function InitRuns<T>(cell: Option<T>, candidates: seq<T>): nat
    decreases |candidates|
  {
    if candidates == [] then 0
    else
      (if cell.None? then 1 else 0) + InitRuns(Fill(cell, candidates[0]), candidates[1..])
  }

  /** Every caller observes the same value: the one already stored, or else
      the first caller's. */
  lemma {:induction false} ObserversAgree<T>(cell: Option<T>, candidates: seq<T>)
    ensures |Observed(cell, candidates)| == |candidates|
    ensures forall i :: 0 <= i < |candidates| ==>
      Observed(cell, candidates)[i] == (if cell.Some? then cell.value else candidates[0])
    decreases |candidates|
  {
    if candidates != [] {
      var filled := Fill(cell, candidates[0]);
      ObserversAgree(filled, candidates[1..]);
    }
  }

  /** Across any number of calls the initialiser runs at most once, and only
      when the cell started empty. */
  lemma {:induction false} InitRunsAtMostOnce<T>(cell: Option<T>, candidates: seq<T>)
    ensures InitRuns(cell, candidates) == (if cell.None? && candidates != [] then 1 else 0)
    decreases |candidates|
  {
    if candidates != [] {
      var filled := Fill(cell, candidates[0]);
      InitRunsAtMostOnce(filled, candidates[1..]);
    }
  }

  /** `get_or_init(f); get_or_init(g)` returns the first call's value twice. */
  lemma GetOrInitIdempotent<T>(cell: Option<T>, f: T, g: T)
    ensures Observed(cell, [f, g]) == Observed(cell, [f]) + Observed(cell, [f])
  {
    ObserversAgree(cell, [f, g]);
    ObserversAgree(cell, [f]);
  }

  class OnceLock<T> {
    const inner: SpinLock<Option<T>>
    /** How many times an initialiser has been evaluated. */
    ghost var initCalls: nat

    /** Between calls the lock is free, and an initialiser has run exactly
        when the cell is filled. */
    ghost predicate Valid()
      reads this, inner
    {
      && !inner.held
      && initCalls == (if inner.data.Some? then 1 else 0)
    }

    /** `OnceLock::new()`: an empty cell. */
    constructor ()
      ensures Valid() && fresh(inner)
      ensures inner.data == None
    {
      inner := new SpinLock(None);
      initCalls := 0;
    }

    /** `get`: the stored value if any; the cell does not change. */
    method Get(cpu: Core) returns (r: Option<T>)
      requires Valid()
      modifies inner, cpu
      ensures Valid()
      ensures inner.data == old(inner.data)
      ensures r == inner.data
      ensures cpu.daif == old(cpu.daif)
    {
      var guard := inner.Lock(cpu);
      match guard.Deref() {
        case Some(value) =>
          r := Some(value);
        case None =>
          r := None;
      }
      guard.Drop(cpu);
    }

    /** `get_mut`: `None` on an empty cell; otherwise the stored value is
        handed out for update. The update the caller makes through the
        returned reference is the function `update`, applied under the lock. */
    method GetMut(cpu: Core, update: T -> T) returns (r: Option<T>)
      requires Valid()
      modifies inner, cpu
      ensures Valid()
      ensures old(inner.data).None? ==> r == None && inner.data == None
      ensures old(inner.data).Some? ==>
        r == inner.data == Some(update(old(inner.data).value))
      ensures cpu.daif == old(cpu.daif)
    {
      var guard := inner.Lock(cpu);
      match guard.Deref() {
        case Some(value) =>
          guard.DerefMut(Some(update(value)));
          r := Some(update(value));
        case None =>
          r := None;
      }
      guard.Drop(cpu);
    }

    /** `get_or_init(init)`: an empty cell is filled with `init()`, which is
        then returned; a filled cell returns its value and `init` is not
        evaluated. */
    method GetOrInit(cpu: Core, init: () -> T) returns (r: T)
      requires Valid()
      modifies this, inner, cpu
      ensures Valid()
      ensures inner.data == Fill(old(inner.data), init())
      ensures inner.data == Some(r)
      ensures initCalls == old(initCalls) + (if old(inner.data).None? then 1 else 0)
      ensures cpu.daif == old(cpu.daif)
    {
      var guard := inner.Lock(cpu);
      if guard.Deref().None? {
        var value := init();
        initCalls := initCalls + 1;
        guard.DerefMut(Some(value));
      }
      r := guard.Deref().value;
      guard.Drop(cpu);
    }
  }

  /** Two `get_or_init` calls on one cell: both return the value the first
      one returned, and at most one initialiser is evaluated. */
  method GetOrInitTwice<T>(cell: OnceLock<T>, cpu: Core, f: () -> T, g: () -> T)
    returns (first: T, second: T)
    requires cell.Valid()
    modifies cell, cell.inner, cpu
    ensures cell.Valid()
    ensures second == first
    ensures [first, second] == Observed(old(cell.inner.data), [f(), g()])
    ensures cell.initCalls <= 1
    ensures cpu.daif == old(cpu.daif)
  {
    ghost var before := cell.inner.data;
    first := cell.GetOrInit(cpu, f);
    second := cell.GetOrInit(cpu, g);
    ObserversAgree(before, [f(), g()]);
  }
}
