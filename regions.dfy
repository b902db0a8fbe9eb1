/** The region arithmetic of the 315-5195 (`compute_region`). Each of the eight slots
    owns two descriptor registers: the size byte at 0x10 + 2 * slot, whose low two bits
    pick the window size, and the base byte at 0x11 + 2 * slot, which gives address bits
    16 .. 23. A region is placed at the base, limited to the window, and its mirror mask
    is clipped to the window. */
module Regions {
  import opened Bits

  /** A computed region: first and last address, and the mirror bits inside the window. */
  datatype Region = Region(start: bv32, end: bv32, mirror: bv32)

  /** `region_size_map`: 64 KB, 128 KB, 512 KB and 2 MB windows, as address masks. */
  const SizeMap: seq<bv32> := [0x00_FFFF, 0x01_FFFF, 0x07_FFFF, 0x1F_FFFF]

  /** The table index of a size byte: its low two bits. */
  function SizeIndex(size: bv8): (k: nat)
    ensures k < |SizeMap|
  {
    var bits := size & 3;
    if bits == 0 then 0 else if bits == 1 then 1 else if bits == 2 then 2 else 3
  }

  /** The size mask the size byte selects: `region_size_map[size & 3]`. */
  function SizeMask(size: bv8): bv32
  {
    SizeMap[SizeIndex(size)]
  }

  /** The base address: the base byte moved to bits 16 .. 23, with the bits inside the
      window cleared. */
  function Base(size: bv8, base: bv8): bv32
  {
    ((base as bv32) << 16) & !SizeMask(size)
  }

  /** `length - 1` (unsigned, so a length of 0 wraps to 0xFFFFFFFF) capped at the
      window size. */
  function FinalLength(size: bv8, length: bv32): bv32
  {
    if SizeMask(size) < length - 1 then SizeMask(size) else length - 1
  }

  /** compute_region for a slot whose descriptor bytes are `size` and `base`. */
  function ComputeRegion(size: bv8, base: bv8, length: bv32, mirror: bv32, offset: bv32): Region
  {
    var start := Add32(Base(size, base), offset & SizeMask(size));
    Region(start, Add32(start, FinalLength(size, length)), mirror & SizeMask(size))
  }

  /** A region whose end is not below its start. */
  predicate Ordered(r: Region)
  {
    NotBelow(r.end, r.start)
  }

  /** `b <= a` on UINT32. */
  predicate NotBelow(a: bv32, b: bv32)
  {
    b <= a
  }

  /** The mirror mask keeps no bit outside the window. */
  lemma MirrorInWindow(size: bv8, base: bv8, length: bv32, mirror: bv32, offset: bv32)
    ensures ComputeRegion(size, base, length, mirror, offset).mirror & !SizeMask(size) == 0
  {
  }

  /** A mirror bit of the region was a mirror bit of the request. */
  lemma MirrorFromRequest(size: bv8, base: bv8, length: bv32, mirror: bv32, offset: bv32)
    ensures ComputeRegion(size, base, length, mirror, offset).mirror & !mirror == 0
  {
  }

  /** The base keeps no bit inside the window. */
  lemma BaseOutsideWindow(size: bv8, base: bv8)
    ensures Base(size, base) & SizeMask(size) == 0
  {
  }

  /** The region covers `min(length - 1, size_mask) + 1` bytes from its start without
      wrapping: its end is not below its start, so it is the start plus the capped length
      with no carry out of bit 31, and the capped length is the smaller of `length - 1`
      (a UINT32, so a zero length gives 0xFFFFFFFF) and the window size. */
  lemma RegionEnd(size: bv8, base: bv8, length: bv32, mirror: bv32, offset: bv32)
    ensures Spans(ComputeRegion(size, base, length, mirror, offset), FinalLength(size, length))
    ensures IsMin(FinalLength(size, length), length - 1, SizeMask(size))
  {
    RegionSpans(size, base, length, mirror, offset);
    FinalLengthIsMin(size, length);
  }

  /** `r` runs from its start to `n` bytes further on, with no wrap-around. */
  predicate Spans(r: Region, n: bv32)
  {
    r.start <= r.end && r.end == Add32(r.start, n)
  }

  /** `n` is the smaller of `a` and `b`. */
  predicate IsMin(n: bv32, a: bv32, b: bv32)
  {
    n <= a && n <= b && (n == a || n == b)
  }

  /** The region spans the capped length from its start. */
  lemma RegionSpans(size: bv8, base: bv8, length: bv32, mirror: bv32, offset: bv32)
    ensures Spans(ComputeRegion(size, base, length, mirror, offset), FinalLength(size, length))
  {
    RegionOrdered(size, base, length, mirror, offset);
  }

  /** The capped length is the smaller of `length - 1` and the window size. */
  lemma FinalLengthIsMin(size: bv8, length: bv32)
    ensures IsMin(FinalLength(size, length), length - 1, SizeMask(size))
  {
    FinalLengthInWindow(size, length);
    FinalLengthWithinRequest(size, length);
    FinalLengthChoice(size, length);
  }

  /** The region does not wrap around the address space: its end is not below its start,
      since the start lies below 2^25 and the length below 2^21. */
  lemma RegionOrdered(size: bv8, base: bv8, length: bv32, mirror: bv32, offset: bv32)
    ensures Ordered(ComputeRegion(size, base, length, mirror, offset))
  {
    var start := Add32(Base(size, base), offset & SizeMask(size));
    var f := FinalLength(size, length);
    StartSmall(size, base, offset);
    FinalSmall(size, length);
    OrderedFrom(start, f, ComputeRegion(size, base, length, mirror, offset));
  }

  /** The start has no bit at or above bit 25 ... */
  lemma StartSmall(size: bv8, base: bv8, offset: bv32)
    ensures Add32(Base(size, base), offset & SizeMask(size)) & 0xFE00_0000 == 0
  {
    BaseOutsideWindow(size, base);
    DisjointAdd(Base(size, base), offset & SizeMask(size), SizeMask(size));
    StartBelow(size, base, offset);
  }

  /** ... nor has the capped length any at or above bit 21. */
  lemma FinalSmall(size: bv8, length: bv32)
    ensures FinalLength(size, length) & 0xFFE0_0000 == 0
  {
    FinalLengthInWindow(size, length);
    LengthBelow(size, FinalLength(size, length));
  }

  /** The parts of the start have no bit at or above bit 25. */
  lemma StartBelow(size: bv8, base: bv8, offset: bv32)
    ensures (Base(size, base) | (offset & SizeMask(size))) & 0xFE00_0000 == 0
  {
  }

  /** A value within a window has no bit at or above bit 21. */
  lemma LengthBelow(size: bv8, f: bv32)
    ensures f <= SizeMask(size) ==> f & 0xFFE0_0000 == 0
  {
  }

  /** A sum of two small values does not wrap ... */
  lemma NoWrap(x: bv32, f: bv32)
    ensures x & 0xFE00_0000 == 0 && f & 0xFFE0_0000 == 0 ==> x <= Add32(x, f)
  {
  }

  /** ... so a region from such a start over such a length is ordered. */
  lemma OrderedFrom(x: bv32, f: bv32, r: Region)
    requires r.start == x && r.end == Add32(x, f)
    ensures x & 0xFE00_0000 == 0 && f & 0xFFE0_0000 == 0 ==> Ordered(r)
  {
    NoWrap(x, f);
  }

  /** The capped length is one of `length - 1` and the window size ... */
  lemma FinalLengthChoice(size: bv8, length: bv32)
    ensures FinalLength(size, length) == length - 1 || FinalLength(size, length) == SizeMask(size)
  {
  }

  /** ... the smaller one: it never exceeds the window ... */
  lemma FinalLengthInWindow(size: bv8, length: bv32)
    ensures FinalLength(size, length) <= SizeMask(size)
  {
    if SizeMask(size) < length - 1 {
    } else {
    }
  }

  /** ... nor the requested length less one ... */
  lemma FinalLengthWithinRequest(size: bv8, length: bv32)
    ensures FinalLength(size, length) <= length - 1
  {
    if SizeMask(size) < length - 1 {
    } else {
    }
  }

  /** ... and a zero length, whose `length - 1` wraps to 0xFFFFFFFF, yields a full
      window. */
  lemma FinalLengthZero(size: bv8)
    ensures FinalLength(size, 0) == SizeMask(size)
  {
  }

  /** The start lies in the window that the base selects: its bits outside the window
      are the base, and its bits inside are the offset's. */
  lemma StartInWindow(size: bv8, base: bv8, length: bv32, mirror: bv32, offset: bv32)
    ensures ComputeRegion(size, base, length, mirror, offset).start
      == Base(size, base) | (offset & SizeMask(size))
  {
    BaseOutsideWindow(size, base);
    DisjointAdd(Base(size, base), offset & SizeMask(size), SizeMask(size));
  }

  /** Adding values with no common bit is OR. */
  lemma DisjointAdd(a: bv32, b: bv32, mask: bv32)
    ensures a & mask == 0 && b & !mask == 0 ==> Add32(a, b) == a | b
  {
  }

  /** When a slot is programmed with size bits 0 and base byte 0x12, a 16 KB request
      occupies 0x120000 .. 0x123FFF. */
  lemma WorkedExample(mirror: bv32)
    ensures ComputeRegion(0x00, 0x12, 0x4000, mirror, 0) == Region(0x12_0000, 0x12_3FFF, mirror & 0xFFFF)
  {
  }
}
