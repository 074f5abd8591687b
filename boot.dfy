/** Boot information for the AArch64 entry: the memory map written into a
    fixed 16-slot static array, and the `BootInfo` handed to the kernel. */
module Boot {
  import opened Wrappers

  newtype u64 = x: int | 0 <= x < 0x1_0000_0000_0000_0000

  datatype MemoryRegionType = Usable | Reserved | Mmio | Firmware

  datatype MemoryRegion = MemoryRegion(start: u64, size: u64, kind: MemoryRegionType)

  datatype BootInfo = BootInfo(memoryMap: seq<MemoryRegion>, kernelPhysStart: u64, kernelPhysEnd: u64)

  /** A device tree blob at a physical address. */
  datatype Dtb = Dtb(base: u64)

  /** Slots in `MEMORY_REGIONS`. */
  const Capacity: nat := 16

  /** What every slot of `MEMORY_REGIONS` holds before parsing. */
  const EmptySlot := MemoryRegion(0, 0, Reserved)

  const DtbNotSet := "DTB pointer not set"

  /** One past the last byte of `r`, as an unbounded integer. */
  function End(r: MemoryRegion): int {
    r.start as int + r.size as int
  }

  /** `start + size` does not overflow a u64. */
  predicate FitsInU64(r: MemoryRegion) {
    End(r) < 0x1_0000_0000_0000_0000
  }

  /** Half-open intervals that share no byte. */
  predicate Disjoint(a: MemoryRegion, b: MemoryRegion) {
    End(a) <= b.start as int || End(b) <= a.start as int
  }

  predicate SortedByStart(regions: seq<MemoryRegion>) {
    forall i, j :: 0 <= i < j < |regions| ==> regions[i].start <= regions[j].start
  }

  predicate PairwiseDisjoint(regions: seq<MemoryRegion>) {
    forall i, j :: 0 <= i < j < |regions| ==> Disjoint(regions[i], regions[j])
  }

  /** Each region ends at or before the next one starts. */
  predicate Chained(regions: seq<MemoryRegion>) {
    forall i :: 0 <= i < |regions| - 1 ==> End(regions[i]) <= regions[i + 1].start as int
  }

  /** A memory map the kernel may rely on: sorted, non-overlapping, no
      region running past the end of the 64-bit address space. */
  predicate WellFormed(regions: seq<MemoryRegion>) {
    && SortedByStart(regions)
    && PairwiseDisjoint(regions)
    && forall i :: 0 <= i < |regions| ==> FitsInU64(regions[i])
  }

  lemma {:induction false} ChainedReaches(regions: seq<MemoryRegion>, i: nat, j: nat)
    requires Chained(regions) && i < j < |regions|
    ensures End(regions[i]) <= regions[j].start as int
    decreases j - i
  {
    if i + 1 < j {
      ChainedReaches(regions, i + 1, j);
    }
  }

  /** Regions laid out back to back in ascending order never overlap. */
  lemma ChainedIsSortedAndDisjoint(regions: seq<MemoryRegion>)
    requires Chained(regions)
    ensures SortedByStart(regions) && PairwiseDisjoint(regions)
  {
    forall i, j | 0 <= i < j < |regions|
      ensures regions[i].start <= regions[j].start && Disjoint(regions[i], regions[j])
    {
      ChainedReaches(regions, i, j);
    }
  }

  /** `MEMORY_REGIONS` as the image starts: every slot empty. */
  method NewMemoryRegions() returns (regions: array<MemoryRegion>)
    ensures fresh(regions)
    ensures regions.Length == Capacity
    ensures forall i :: 0 <= i < regions.Length ==> regions[i] == EmptySlot
  {
    regions := new MemoryRegion[Capacity](_ => EmptySlot);
  }

  /** The three regions `parse_memory_map` reports, in order. */
  const ParsedRegions: seq<MemoryRegion> := [
    MemoryRegion(0x0000_0000, 0x3B00_0000, Usable),
    MemoryRegion(0x3B00_0000, 0x0500_0000, Firmware),
    MemoryRegion(0xFE00_0000, 0x0200_0000, Mmio)
  ]

  /** The reported map is well formed: RAM [0, 0x3B000000), firmware
      [0x3B000000, 0x40000000), MMIO [0xFE000000, 0x100000000). */
  lemma ParsedRegionsWellFormed()
    ensures WellFormed(ParsedRegions)
    ensures End(ParsedRegions[0]) == 0x3B00_0000
    ensures End(ParsedRegions[1]) == 0x4000_0000
    ensures End(ParsedRegions[2]) == 0x1_0000_0000
  {
    ChainedIsSortedAndDisjoint(ParsedRegions);
  }

  /** `Dtb::from_phys_addr`: never fails, whatever the address. */
  function FromPhysAddr(addr: u64): (r: Option<Dtb>)
    ensures r.Some? && r.value.base == addr
  {
    Some(Dtb(addr))
  }

  /** `parse_memory_map`: write the three known regions into the first slots
      of `regions`, counting as it goes, and return the written prefix. The
      other slots keep what they held. */
  method ParseMemoryMap(regions: array<MemoryRegion>, dtb: Dtb) returns (memoryMap: seq<MemoryRegion>)
    requires regions.Length == Capacity
    modifies regions
    ensures memoryMap == ParsedRegions
    ensures |memoryMap| <= Capacity
    ensures regions[..|memoryMap|] == memoryMap
    ensures regions[|memoryMap|..] == old(regions[|memoryMap|..])
    ensures WellFormed(memoryMap)
  {
    var count := 0;

    regions[count] := MemoryRegion(0x0000_0000, 0x3B00_0000, Usable);
    count := count + 1;

    regions[count] := MemoryRegion(0x3B00_0000, 0x0500_0000, Firmware);
    count := count + 1;

    regions[count] := MemoryRegion(0xFE00_0000, 0x0200_0000, Mmio);
    count := count + 1;

    memoryMap := regions[..count];
    ParsedRegionsWellFormed();
  }

  /** `boot_info`: panics if the entry code left the DTB pointer at 0;
      otherwise the parsed memory map with the kernel's physical range taken
      from the linker symbols `__kernel_start` and `__kernel_end`. */
  method CollectBootInfo(dtbPtr: u64, regions: array<MemoryRegion>, kernelStart: u64, kernelEnd: u64)
    returns (r: Outcome<BootInfo>)
    requires regions.Length == Capacity
    modifies regions
    ensures r.Panicked? <==> dtbPtr == 0
    ensures r.Panicked? ==> r.message == DtbNotSet && regions[..] == old(regions[..])
    ensures r.Returned? ==> r.value == BootInfo(ParsedRegions, kernelStart, kernelEnd)
    ensures r.Returned? ==> WellFormed(r.value.memoryMap)
    ensures r.Returned? ==>
      && regions[..|r.value.memoryMap|] == r.value.memoryMap
      && regions[|r.value.memoryMap|..] == old(regions[|r.value.memoryMap|..])
  {
    if dtbPtr == 0 {
      return Panicked(DtbNotSet);
    }
    var dtb := FromPhysAddr(dtbPtr).value;
    var memoryMap := ParseMemoryMap(regions, dtb);
    r := Returned(BootInfo(memoryMap, kernelStart, kernelEnd));
  }
}
