/** The mirror expansion of the 315-5195 mapper. A mirror mask lists the address
    bits a region ignores; its set bits are split into a low group (bits 0 .. 17) and a
    high group (bits 18 .. 31), and every pair of a high-group counter and a low-group
    counter selects one alias offset. `map_mirrors` installs every alias,
    `store_mirrors` records them in a 32-entry table indexed by the low counter alone. */
module Mirrors {
  import opened Bits

  /** The set bits of the low group, lowest first: the `lmirrorbit` array. */
  function LowBits(m: bv32): (r: seq<bv32>)
    ensures |r| <= 18
  {
    SetBitsLength(m, 0, 18);
    SetBits(m, 0, 18)
  }

  /** The set bits of the high group, lowest first: the `hmirrorbit` array. */
  function HighBits(m: bv32): (r: seq<bv32>)
    ensures |r| <= 14
  {
    SetBitsLength(m, 18, 32);
    SetBits(m, 18, 32)
  }

  /** The number of low-group counters, `1 << lmirrorbits`. */
  function LowCount(m: bv32): (r: nat)
    ensures r >= 1
  {
    Pow2(|LowBits(m)|)
  }

  /** The number of high-group counters, `1 << hmirrorbits`. */
  function HighCount(m: bv32): (r: nat)
    ensures r >= 1
  {
    Pow2(|HighBits(m)|)
  }

  /** The alias offset for counters hc and lc, accumulated as the mapper does: the
      high selection first (`hmirrorbase`), then the low bits ORed onto it
      (`lmirrorbase`). */
  function Offset(m: bv32, hc: nat, lc: nat): bv32
  {
    SelectFrom(Select(HighBits(m), hc, |HighBits(m)|), LowBits(m), lc, |LowBits(m)|)
  }

  /** The offset is the union of a subset of the high bits and a subset of the low bits. */
  lemma OffsetSplit(m: bv32, hc: nat, lc: nat)
    ensures Offset(m, hc, lc) == Select(HighBits(m), hc, |HighBits(m)|) | Select(LowBits(m), lc, |LowBits(m)|)
  {
    SelectFromIsOr(Select(HighBits(m), hc, |HighBits(m)|), LowBits(m), lc, |LowBits(m)|);
  }

  /** The first alias (both counters 0) has offset 0: it re-installs the primary range. */
  lemma OffsetZero(m: bv32)
    ensures Offset(m, 0, 0) == 0
  {
    OffsetSplit(m, 0, 0);
    SelectNone(HighBits(m), |HighBits(m)|);
    SelectNone(LowBits(m), |LowBits(m)|);
  }

  /** Every alias offset is made of mirror bits only. */
  lemma OffsetInMirror(m: bv32, hc: nat, lc: nat)
    ensures Offset(m, hc, lc) & !m == 0
  {
    OffsetSplit(m, hc, lc);
    SetBitsInMask(m, 0, 18);
    SetBitsInMask(m, 18, 32);
    SelectWithin(HighBits(m), hc, |HighBits(m)|, m);
    SelectWithin(LowBits(m), lc, |LowBits(m)|, m);
    OrWithin(Select(HighBits(m), hc, |HighBits(m)|), Select(LowBits(m), lc, |LowBits(m)|), m);
  }

  /** Bits 18 .. 31, where the high group lives. */
  const HighGroup: bv32 := 0xFFFC_0000

  /** Bits 0 .. 17, where the low group lives. */
  const LowGroup: bv32 := 0x3_FFFF

  lemma HighGroupMask()
    ensures RangeMask(18, 32) == HighGroup
  {
    assert Bit(8) == 0x100;
    assert Bit(16) == 0x1_0000;
    assert Bit(24) == 0x100_0000;
    assert RangeMask(18, 25) == 0x01FC_0000;
  }

  lemma LowGroupMask()
    ensures RangeMask(0, 18) == LowGroup
  {
    assert RangeMask(0, 14) == 0x3FFF;
  }

  /** The high selection lies in bits 18 .. 31 ... */
  lemma HighInGroup(m: bv32, hc: nat)
    ensures Select(HighBits(m), hc, |HighBits(m)|) & !HighGroup == 0
  {
    SetBitsInRange(m, 18, 32);
    HighGroupMask();
    SelectWithin(HighBits(m), hc, |HighBits(m)|, HighGroup);
  }

  /** ... and the low selection in bits 0 .. 17. */
  lemma LowInGroup(m: bv32, lc: nat)
    ensures Select(LowBits(m), lc, |LowBits(m)|) & !LowGroup == 0
  {
    SetBitsInRange(m, 0, 18);
    LowGroupMask();
    SelectWithin(LowBits(m), lc, |LowBits(m)|, LowGroup);
  }

  /** Equal offsets have equal high selections ... */
  lemma OffsetParts(m: bv32, hc1: nat, lc1: nat, hc2: nat, lc2: nat)
    ensures Offset(m, hc1, lc1) == Offset(m, hc2, lc2)
      ==> Select(HighBits(m), hc1, |HighBits(m)|) == Select(HighBits(m), hc2, |HighBits(m)|)
  {
    var h1, l1 := Select(HighBits(m), hc1, |HighBits(m)|), Select(LowBits(m), lc1, |LowBits(m)|);
    var h2, l2 := Select(HighBits(m), hc2, |HighBits(m)|), Select(LowBits(m), lc2, |LowBits(m)|);
    OffsetSplit(m, hc1, lc1);
    OffsetSplit(m, hc2, lc2);
    HighInGroup(m, hc1);
    HighInGroup(m, hc2);
    LowInGroup(m, lc1);
    LowInGroup(m, lc2);
    CombineSplit(h1, l1, h2, l2, HighGroup, LowGroup);
  }

  /** ... and, for one high counter, equal low selections. */
  lemma OffsetLowParts(m: bv32, hc: nat, lc1: nat, lc2: nat)
    ensures Offset(m, hc, lc1) == Offset(m, hc, lc2)
      ==> Select(LowBits(m), lc1, |LowBits(m)|) == Select(LowBits(m), lc2, |LowBits(m)|)
  {
    var h := Select(HighBits(m), hc, |HighBits(m)|);
    var l1, l2 := Select(LowBits(m), lc1, |LowBits(m)|), Select(LowBits(m), lc2, |LowBits(m)|);
    OffsetSplit(m, hc, lc1);
    OffsetSplit(m, hc, lc2);
    HighInGroup(m, hc);
    LowInGroup(m, lc1);
    LowInGroup(m, lc2);
    CombineSplit(h, l1, h, l2, HighGroup, LowGroup);
  }

  /** Two counter pairs in range that give the same offset are the same pair: the
      aliases are pairwise distinct. */
  lemma OffsetInjective(m: bv32, hc1: nat, lc1: nat, hc2: nat, lc2: nat)
    requires hc1 < HighCount(m) && hc2 < HighCount(m)
    requires lc1 < LowCount(m) && lc2 < LowCount(m)
    requires Offset(m, hc1, lc1) == Offset(m, hc2, lc2)
    ensures hc1 == hc2 && lc1 == lc2
  {
    OffsetParts(m, hc1, lc1, hc2, lc2);
    SetBitsNonZero(m, 18, 32);
    SetBitsDisjoint(m, 18, 32);
    SelectInjective(HighBits(m), hc1, hc2);
    assert Offset(m, hc1, lc1) == Offset(m, hc1, lc2);
    OffsetLowParts(m, hc1, lc1, lc2);
    SetBitsNonZero(m, 0, 18);
    SetBitsDisjoint(m, 0, 18);
    SelectInjective(LowBits(m), lc1, lc2);
  }

  lemma Low14Mask()
    ensures RangeMask(0, 14) == 0x3FFF
  {
  }

  /** When the mask has none of bits 0 .. 13 set, as at every call site of
      `store_mirrors`, the low group has at most 4 bits (bits 14 .. 17), so the low
      counter stays below 16 and inside the 32-entry tables. */
  lemma LowCountBound(m: bv32)
    ensures m & 0x3FFF == 0 ==> |LowBits(m)| <= 4
  {
    SetBitsSplit(m, 0, 14, 18);
    SetBitsLength(m, 14, 18);
    Low14Mask();
    if m & 0x3FFF == 0 {
      SetBitsNone(m, 0, 14);
    }
  }

  /** The last high counter, `(1 << hmirrorbits) - 1`: every high counter bit set. */
  function LastHigh(m: bv32): nat
  {
    HighCount(m) - 1
  }

  /** The last high counter selects every high-group bit of the mask. */
  lemma HighAllSelected(m: bv32)
    ensures Select(HighBits(m), LastHigh(m), |HighBits(m)|) == m & HighGroup
  {
    var s := HighBits(m);
    var c := LastHigh(m);
    assert c == Pow2(|s|) - 1;
    HighSelectsAll(m, c);
  }

  lemma HighSelectsAll(m: bv32, c: nat)
    requires c == Pow2(|SetBits(m, 18, 32)|) - 1
    ensures Select(SetBits(m, 18, 32), c, |SetBits(m, 18, 32)|) == m & HighGroup
  {
    SelectAllSet(m, 18, 32, |SetBits(m, 18, 32)|);
    HighGroupMask();
  }

  /** The offsets of the last high pass: all high bits of the mask, plus the low
      subset that the low counter selects. */
  lemma LastPassOffset(m: bv32, lc: nat)
    ensures Offset(m, LastHigh(m), lc) == (m & HighGroup) | Select(LowBits(m), lc, |LowBits(m)|)
  {
    OffsetSplit(m, LastHigh(m), lc);
    HighAllSelected(m);
  }

  // ---------------------------------------------------------------------------
  // The order in which the expansion loops visit the counters

  /** One round of the expansion: high counter hc, low counter lc. */
  datatype Pass = Pass(hc: nat, lc: nat)

  /** The rounds of one high pass, low counters 0 .. n - 1. */
  function PassRow(hc: nat, n: nat): (r: seq<Pass>)
    ensures |r| == n
  {
    if n == 0 then [] else PassRow(hc, n - 1) + [Pass(hc, n - 1)]
  }

  /** The rounds of high passes 0 .. k - 1, each a full row of n low counters. */
  function Passes(k: nat, n: nat): (r: seq<Pass>)
    ensures |r| == k * n
  {
    if k == 0 then [] else Passes(k - 1, n) + PassRow(k - 1, n)
  }

  lemma PassesNext(k: nat, n: nat)
    ensures Passes(k + 1, n) == Passes(k, n) + PassRow(k, n)
  {
  }

  lemma {:induction false} PassRowAt(hc: nat, n: nat, lc: nat)
    requires lc < n
    ensures PassRow(hc, n)[lc] == Pass(hc, lc)
  {
    if lc < n - 1 {
      PassRowAt(hc, n - 1, lc);
    }
  }

  /** Round number hc * n + lc is the pair (hc, lc): the loops run row-major. */
  lemma {:induction false} PassesAt(k: nat, n: nat, hc: nat, lc: nat)
    requires hc < k && lc < n
    ensures hc * n + lc < |Passes(k, n)|
    ensures Passes(k, n)[hc * n + lc] == Pass(hc, lc)
  {
    MulStep(hc, k, n, lc);
    if hc < k - 1 {
      PassesAt(k - 1, n, hc, lc);
    } else {
      PassRowAt(hc, n, lc);
    }
  }

  /** Every round has its counters in range, and its position is hc * n + lc: the
      counter pair determines the round. */
  lemma {:induction false} PassesIndex(k: nat, n: nat, i: nat)
    requires i < |Passes(k, n)|
    ensures Passes(k, n)[i].hc < k && Passes(k, n)[i].lc < n
    ensures i == Passes(k, n)[i].hc * n + Passes(k, n)[i].lc
  {
    var p := Passes(k - 1, n);
    assert Passes(k, n) == p + PassRow(k - 1, n);
    if i < |p| {
      PassesIndex(k - 1, n, i);
    } else {
      PassRowAt(k - 1, n, i - |p|);
    }
  }

  /** Index arithmetic of the row-major layout. */
  lemma MulStep(hc: nat, k: nat, n: nat, lc: nat)
    requires hc < k && lc < n
    ensures hc * n + lc < k * n
    ensures hc < k - 1 ==> hc * n + lc < (k - 1) * n
    ensures hc == k - 1 ==> hc * n + lc == (k - 1) * n + lc
  {
    assert (hc + 1) * n == hc * n + n;
    if hc < k - 1 {
      assert (hc + 1) * n <= (k - 1) * n by {
        MulMonotone(hc + 1, k - 1, n);
      }
    }
    MulMonotone(hc + 1, k, n);
  }

  lemma MulMonotone(a: nat, b: nat, n: nat)
    requires a <= b
    ensures a * n <= b * n
  {
  }

  /** Every round map_mirrors runs for mask m: none for a zero mask. */
  function Rounds(m: bv32): seq<Pass>
  {
    if m == 0 then [] else Passes(HighCount(m), LowCount(m))
  }

  /** A nonzero mask runs 2^(low bits + high bits) rounds. */
  lemma RoundsCount(m: bv32)
    ensures m == 0 ==> Rounds(m) == []
    ensures m != 0 ==> |Rounds(m)| == Pow2(|LowBits(m)| + |HighBits(m)|)
  {
    var h, l := |HighBits(m)|, |LowBits(m)|;
    Pow2Add(h, l);
    assert HighCount(m) * LowCount(m) == Pow2(h + l);
  }

  // ---------------------------------------------------------------------------
  // The aliases map_mirrors installs

  /** An address range, both ends inclusive. */
  datatype Span = Span(start: bv32, end: bv32)

  /** Address `a` lies in the span: `a >= start && a <= end`, unsigned. */
  predicate Contains(s: Span, a: bv32)
  {
    s.start <= a && a <= s.end
  }

  /** The range shifted by the offset of counters hc and lc (32-bit wrap-around, as
      the unsigned C addition). */
  function Image(start: bv32, end: bv32, m: bv32, hc: nat, lc: nat): Span
  {
    Span(Add32(start, Offset(m, hc, lc)), Add32(end, Offset(m, hc, lc)))
  }

  /** A function applied to every round, in order. */
  function MapPasses(f: Pass -> Span, ps: seq<Pass>): (r: seq<Span>)
    ensures |r| == |ps|
    ensures forall i :: 0 <= i < |ps| ==> r[i] == f(ps[i])
  {
    seq(|ps|, i requires 0 <= i < |ps| => f(ps[i]))
  }

  lemma MapPassesSnoc(f: Pass -> Span, ps: seq<Pass>, p: Pass)
    ensures MapPasses(f, ps + [p]) == MapPasses(f, ps) + [f(p)]
  {
  }

  /** The images of a list of rounds, in order. */
  function Images(start: bv32, end: bv32, m: bv32, ps: seq<Pass>): (r: seq<Span>)
    ensures |r| == |ps|
  {
    MapPasses((q: Pass) => Image(start, end, m, q.hc, q.lc), ps)
  }

  /** One more round adds its image at the end. */
  lemma ImagesSnoc(start: bv32, end: bv32, m: bv32, ps: seq<Pass>, p: Pass)
    ensures Images(start, end, m, ps + [p]) == Images(start, end, m, ps) + [Image(start, end, m, p.hc, p.lc)]
  {
    MapPassesSnoc((q: Pass) => Image(start, end, m, q.hc, q.lc), ps, p);
  }

  /** Every alias map_mirrors installs for the range start .. end, in installation order. */
  function Aliases(start: bv32, end: bv32, m: bv32): seq<Span>
  {
    Images(start, end, m, Rounds(m))
  }

  /** Round number hc * 2^(low bits) + lc of a nonzero mask is the pair (hc, lc). */
  lemma RoundAt(m: bv32, hc: nat, lc: nat)
    requires m != 0 && hc < HighCount(m) && lc < LowCount(m)
    ensures hc * LowCount(m) + lc < |Rounds(m)| && Rounds(m)[hc * LowCount(m) + lc] == Pass(hc, lc)
  {
    PassesAt(HighCount(m), LowCount(m), hc, lc);
  }

  lemma ImagesAt(start: bv32, end: bv32, m: bv32, ps: seq<Pass>, i: nat, hc: nat, lc: nat)
    requires i < |ps| && ps[i] == Pass(hc, lc)
    ensures Images(start, end, m, ps)[i] == Image(start, end, m, hc, lc)
  {
  }

  /** The first alias of a nonzero mask is the primary range itself. */
  lemma AliasFirst(start: bv32, end: bv32, m: bv32)
    requires m != 0
    ensures |Aliases(start, end, m)| > 0 && Aliases(start, end, m)[0] == Span(start, end)
  {
    RoundAt(m, 0, 0);
    ImagesAt(start, end, m, Rounds(m), 0, 0, 0);
    ImageZero(start, end, m);
  }

  lemma ImageZero(start: bv32, end: bv32, m: bv32)
    ensures Image(start, end, m, 0, 0) == Span(start, end)
  {
    OffsetZero(m);
  }

  /** Two rounds of one expansion shift the range by different offsets, so no alias
      is installed twice. */
  lemma RoundOffsetsDistinct(m: bv32, i: nat, j: nat)
    requires i < j < |Rounds(m)|
    ensures Offset(m, Rounds(m)[i].hc, Rounds(m)[i].lc) != Offset(m, Rounds(m)[j].hc, Rounds(m)[j].lc)
  {
    var p, q := Rounds(m)[i], Rounds(m)[j];
    RoundsDistinct(m, i, j);
    OffsetDistinct(m, p.hc, p.lc, q.hc, q.lc);
  }

  /** Different rounds of one expansion have different, in-range counter pairs. */
  lemma RoundsDistinct(m: bv32, i: nat, j: nat)
    requires i < j < |Rounds(m)|
    ensures Rounds(m)[i] != Rounds(m)[j]
    ensures Rounds(m)[i].hc < HighCount(m) && Rounds(m)[i].lc < LowCount(m)
    ensures Rounds(m)[j].hc < HighCount(m) && Rounds(m)[j].lc < LowCount(m)
  {
    PassesIndex(HighCount(m), LowCount(m), i);
    PassesIndex(HighCount(m), LowCount(m), j);
  }

  /** Different in-range counter pairs have different offsets. */
  lemma OffsetDistinct(m: bv32, hc1: nat, lc1: nat, hc2: nat, lc2: nat)
    requires hc1 < HighCount(m) && hc2 < HighCount(m)
    requires lc1 < LowCount(m) && lc2 < LowCount(m)
    ensures (hc1, lc1) != (hc2, lc2) ==> Offset(m, hc1, lc1) != Offset(m, hc2, lc2)
  {
    if Offset(m, hc1, lc1) == Offset(m, hc2, lc2) {
      OffsetInjective(m, hc1, lc1, hc2, lc2);
    }
  }

  // ---------------------------------------------------------------------------
  // The table store_mirrors leaves behind

  /** Entry `l` of a mirror table after store_mirrors(base, m) when it held `prev`:
      the low counter alone indexes the table, so each high pass overwrites the one
      before and only the last pass remains. */
  function StoredEntry(prev: bv32, base: bv32, m: bv32, l: nat): bv32
  {
    if m != 0 && l < LowCount(m) then Add32(base, Offset(m, LastHigh(m), l)) else prev
  }

  /** A stored entry below the low count holds the base shifted by every high mirror
      bit together with the low subset that its index selects. */
  lemma StoredEntryValue(prev: bv32, base: bv32, m: bv32, l: nat)
    requires m != 0 && l < LowCount(m)
    ensures StoredEntry(prev, base, m, l)
      == Add32(base, (m & HighGroup) | Select(LowBits(m), l, |LowBits(m)|))
  {
    LastPassOffset(m, l);
  }

  /** An entry at or past the low count, or any entry when the mask is zero, keeps
      what it held. */
  lemma StoredEntryKept(prev: bv32, base: bv32, m: bv32, l: nat)
    requires m == 0 || l >= LowCount(m)
    ensures StoredEntry(prev, base, m, l) == prev
  {
  }

  /** Entry `l` of the table while store_mirrors runs: the stores of high passes
      0 .. hc - 1 done, and of pass hc the first lc. */
  function PassEntry(prev: bv32, base: bv32, m: bv32, hc: nat, lc: nat, l: nat): bv32
  {
    if l < lc then Add32(base, Offset(m, hc, l))
    else if hc > 0 && l < LowCount(m) then Add32(base, Offset(m, hc - 1, l))
    else prev
  }

  /** One more store of pass hc sets entry lc and leaves the others. */
  lemma PassEntryStep(prev: bv32, base: bv32, m: bv32, hc: nat, lc: nat, l: nat, lbase: bv32)
    ensures lbase == Offset(m, hc, lc) ==>
      PassEntry(prev, base, m, hc, lc + 1, l)
        == if l == lc then Add32(base, lbase) else PassEntry(prev, base, m, hc, lc, l)
  {
  }

  /** After every high pass the table holds what StoredEntry says. */
  lemma PassEntryDone(prev: bv32, base: bv32, m: bv32, l: nat)
    requires m != 0
    ensures PassEntry(prev, base, m, HighCount(m), 0, l) == StoredEntry(prev, base, m, l)
  {
  }

  /** A finished low pass is the start of the next high pass. */
  lemma PassEntryNext(prev: bv32, base: bv32, m: bv32, hc: nat, l: nat)
    ensures PassEntry(prev, base, m, hc, LowCount(m), l) == PassEntry(prev, base, m, hc + 1, 0, l)
  {
  }

  lemma PassAssoc(a: seq<Pass>, b: seq<Pass>, c: seq<Pass>)
    ensures a + (b + c) == a + b + c
  {
  }

  // ---------------------------------------------------------------------------
  // The loops shared by map_mirrors and store_mirrors

  /** One collection loop `if (mirror & (1 << i)) bit[bits++] = 1 << i` over
      positions lo .. hi - 1 (`Bit(i)` is `1 << i`, BitIsShift). */
  method CollectBits(mirror: bv32, lo: nat, hi: nat) returns (bits: seq<bv32>)
    requires lo <= hi <= 32
    ensures bits == SetBits(mirror, lo, hi)
  {
    bits := [];
    for i := lo to hi
      invariant bits == SetBits(mirror, lo, i)
    {
      if mirror & Bit(i) != 0 {
        bits := bits + [Bit(i)];
      }
    }
  }

  /** The accumulation loop `if (count & (1 << i)) base |= bit[i]` over all bits. */
  method SelectLoop(base: bv32, bits: seq<bv32>, count: nat) returns (r: bv32)
    ensures r == SelectFrom(base, bits, count, |bits|)
  {
    r := base;
    for i := 0 to |bits|
      invariant r == SelectFrom(base, bits, count, i)
    {
      if CounterBit(count, i) {
        r := r | bits[i];
      }
    }
  }
}
