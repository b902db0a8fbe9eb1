/** Bit-level helpers for the 315-5195 mirror expansion: single-bit values of a 32-bit
    word, the list of set bits that a mirror mask holds in a range of positions (the
    `lmirrorbit`/`hmirrorbit` arrays of the mapper) and the OR of the part of that list
    a loop counter selects (the `lmirrorbase`/`hmirrorbase` accumulation). */
module Bits {

  function Pow2(n: nat): (r: nat)
    ensures r >= 1
  {
    if n == 0 then 1 else 2 * Pow2(n - 1)
  }

  lemma {:induction false} Pow2Add(a: nat, b: nat)
    ensures Pow2(a) * Pow2(b) == Pow2(a + b)
  {
    if a > 0 {
      Pow2Add(a - 1, b);
      assert Pow2(a) * Pow2(b) == 2 * (Pow2(a - 1) * Pow2(b));
    }
  }

  lemma {:induction false} Pow2Monotone(a: nat, b: nat)
    requires a <= b
    ensures Pow2(a) <= Pow2(b)
  {
    if a < b {
      Pow2Monotone(a, b - 1);
    }
  }

  // ---------------------------------------------------------------------------
  // 32-bit unsigned arithmetic

  /** `a + b` on UINT32, wrapping modulo 2^32. */
  function Add32(a: bv32, b: bv32): bv32
  {
    a + b
  }

  /** `a - b` on UINT32, wrapping modulo 2^32. */
  function Sub32(a: bv32, b: bv32): bv32
  {
    a - b
  }

  // ---------------------------------------------------------------------------
  // Single bits

  /** The value `1 << i`, built one doubling at a time (BitIsShift ties it to the shift). */
  function Bit(i: nat): bv32
    requires i < 32
  {
    if i == 0 then 1 else Bit(i - 1) << 1
  }

  lemma ShiftStep(k: nat)
    requires k < 31
    ensures ((1 as bv32) << k) << 1 == (1 as bv32) << (k + 1)
  {
  }

  lemma {:induction false} BitIsShift(i: nat)
    requires i < 32
    ensures Bit(i) == (1 as bv32) << i
  {
    if i > 0 {
      BitIsShift(i - 1);
      ShiftStep(i - 1);
    }
  }

  lemma ShiftPair(p: nat, q: nat)
    requires p < 32 && q < 32 && p != q
    ensures ((1 as bv32) << p) & ((1 as bv32) << q) == 0
  {
  }

  lemma ShiftInMask(m: bv32, p: nat)
    requires p < 32
    ensures (1 as bv32) << p != 0
    ensures m & ((1 as bv32) << p) != 0 ==> ((1 as bv32) << p) & !m == 0
  {
  }

  lemma ShiftLowMask(k: nat)
    requires k < 31
    ensures (((1 as bv32) << k) - 1) | ((1 as bv32) << k) == (((1 as bv32) << k) << 1) - 1
  {
  }

  lemma BitPairDisjoint(p: nat, q: nat)
    requires p < 32 && q < 32 && p != q
    ensures Bit(p) & Bit(q) == 0
  {
    BitIsShift(p);
    BitIsShift(q);
    ShiftPair(p, q);
  }

  /** A single bit is nonzero, and lies inside every mask that has it set. */
  lemma BitInMask(m: bv32, p: nat)
    requires p < 32
    ensures Bit(p) != 0
    ensures m & Bit(p) != 0 ==> Bit(p) & !m == 0
  {
    BitIsShift(p);
    ShiftInMask(m, p);
  }

  // ---------------------------------------------------------------------------
  // Loop counters

  /** Bit i of a loop counter: the test `count & (1 << i)` of the expansion loops. */
  function CounterBit(c: nat, i: nat): bool
  {
    if i == 0 then c % 2 == 1 else CounterBit(c / 2, i - 1)
  }

  lemma {:induction false} CounterBitZero(i: nat)
    ensures !CounterBit(0, i)
  {
    if i > 0 {
      CounterBitZero(i - 1);
    }
  }

  /** Two counters below 2^n that agree on their n low bits are equal. */
  lemma {:induction false} CounterBitsDetermine(c1: nat, c2: nat, n: nat)
    requires c1 < Pow2(n) && c2 < Pow2(n)
    requires forall k :: 0 <= k < n ==> CounterBit(c1, k) == CounterBit(c2, k)
    ensures c1 == c2
  {
    if n > 0 {
      assert CounterBit(c1, 0) == CounterBit(c2, 0);
      forall k | 0 <= k < n - 1
        ensures CounterBit(c1 / 2, k) == CounterBit(c2 / 2, k)
      {
        assert CounterBit(c1, k + 1) == CounterBit(c2, k + 1);
      }
      CounterBitsDetermine(c1 / 2, c2 / 2, n - 1);
    }
  }

  /** The last counter value 2^n - 1 has all of its n low bits set. */
  lemma {:induction false} CounterBitAllOnes(n: nat, k: nat)
    requires k < n
    ensures CounterBit(Pow2(n) - 1, k)
  {
    assert (Pow2(n) - 1) % 2 == 1 && (Pow2(n) - 1) / 2 == Pow2(n - 1) - 1;
    if k > 0 {
      CounterBitAllOnes(n - 1, k - 1);
    }
  }

  // ---------------------------------------------------------------------------
  // Masks and the collected bit lists

  /** The mask of bit positions lo .. hi - 1. */
  function RangeMask(lo: nat, hi: nat): bv32
    requires lo <= hi <= 32
    decreases hi
  {
    if lo == hi then 0 else RangeMask(lo, hi - 1) | Bit(hi - 1)
  }

  /** The values `1 << i` of the bits of `m` set at positions lo .. hi - 1, in increasing
      position order: what the collection loop `if (mirror & (1 << i)) bit[n++] = 1 << i`
      leaves in its array. */
  function SetBits(m: bv32, lo: nat, hi: nat): seq<bv32>
    requires lo <= hi <= 32
    decreases hi, m  // m is listed so that the verifier unrolls only for a known mask
  {
    if lo == hi then []
    else SetBits(m, lo, hi - 1) + Collected(m, hi - 1)
  }

  ghost predicate NonZero(bits: seq<bv32>)
  {
    forall k :: 0 <= k < |bits| ==> bits[k] != 0
  }

  /** Every element lies inside `mask`. */
  ghost predicate Within(bits: seq<bv32>, mask: bv32)
  {
    forall k :: 0 <= k < |bits| ==> bits[k] & !mask == 0
  }

  /** No two elements share a bit. */
  ghost predicate Disjoint(bits: seq<bv32>)
  {
    forall j, k {:trigger Apart(bits[j], bits[k])} :: 0 <= j < k < |bits| ==> Apart(bits[j], bits[k])
  }

  /** The two values share no bit. */
  predicate Apart(x: bv32, y: bv32)
  {
    x & y == 0
  }

  lemma DisjointAt(bits: seq<bv32>, j: nat, k: nat)
    requires j < k < |bits|
    ensures Disjoint(bits) ==> Apart(bits[j], bits[k])
  {
  }

  /** OR of the elements `bits[j]`, j < i, whose counter bit j is set: the value the
      inner loop `if (count & (1 << j)) base |= bit[j]` holds after i rounds. */
  function Select(bits: seq<bv32>, c: nat, i: nat): bv32
    requires i <= |bits|
  {
    if i == 0 then 0
    else if CounterBit(c, i - 1) then Select(bits, c, i - 1) | bits[i - 1]
    else Select(bits, c, i - 1)
  }

  // ---------------------------------------------------------------------------
  // Bit-vector steps used by the inductions below. They state their hypotheses
  // as implications, so that a call adds no proof obligation to its caller.

  lemma OrWithin(a: bv32, b: bv32, mask: bv32)
    ensures a & !mask == 0 && b & !mask == 0
      ==> (a | b) & !mask == 0
  {
  }

  lemma WithinGrow(a: bv32, r: bv32, x: bv32)
    ensures a & !r == 0
      ==> a & !(r | x) == 0 && x & !(r | x) == 0
  {
  }

  lemma OutsideDisjoint(a: bv32, r: bv32, x: bv32)
    ensures a & !r == 0 && x & r == 0
      ==> a & x == 0
  {
  }

  lemma OrAvoids(a: bv32, b: bv32, x: bv32)
    ensures a & x == 0 && b & x == 0
      ==> (a | b) & x == 0
  {
  }

  lemma OrKeeps(a: bv32, t: bv32, x: bv32)
    ensures x & t == 0
      ==> (a | t) & x == a & x
  {
  }

  lemma OrAdds(a: bv32, x: bv32)
    ensures a & x == 0
      ==> (a | x) & x == x
  {
  }

  lemma OrEmpty(a: bv32, r: bv32, x: bv32)
    ensures a & r == 0 && a & x == 0
      ==> a & (r | x) == 0
  {
  }

  lemma CombineSplit(h1: bv32, l1: bv32, h2: bv32, l2: bv32, hm: bv32, lm: bv32)
    ensures lm & hm == 0 && (h1 & !hm == 0 && h2 & !hm == 0 && l1 & !lm == 0 && l2 & !lm == 0) && h1 | l1 == h2 | l2
      ==> h1 == h2 && l1 == l2
  {
  }

  lemma SelfWithin(x: bv32)
    ensures x & !x == 0
  {
  }

  lemma AndNotTrans(a: bv32, s: bv32, t: bv32)
    ensures a & !s == 0 && s & !t == 0
      ==> a & !t == 0
  {
  }

  lemma OrCovers(r: bv32, x: bv32)
    ensures r & !(r | x) == 0 && x & !(r | x) == 0
  {
  }

  lemma OrSplitZero(m: bv32, r: bv32, x: bv32)
    ensures m & (r | x) == 0
      ==> m & r == 0 && m & x == 0
  {
  }

  lemma OrRegroup(base: bv32, s: bv32, b: bv32, x: bv32)
    ensures x == base | s ==> x | b == base | (s | b)
  {
  }

  lemma AndZero(a: bv32)
    ensures a & 0 == 0
  {
  }

  lemma OrZero(a: bv32)
    ensures a | 0 == a
  {
  }

  lemma MaskSkip(m: bv32, r: bv32, x: bv32)
    ensures m & x == 0 ==> m & (r | x) == m & r
  {
  }

  lemma MaskTake(m: bv32, r: bv32, x: bv32)
    ensures x & !m == 0 ==> (m & r) | x == m & (r | x)
  {
  }

  // ---------------------------------------------------------------------------
  // Properties of RangeMask

  /** A bit at or above `hi` is outside the range lo .. hi - 1. */
  lemma {:induction false} BitAboveRange(q: nat, lo: nat, hi: nat)
    requires lo <= hi <= q < 32
    ensures Bit(q) & RangeMask(lo, hi) == 0
    decreases hi
  {
    if lo < hi {
      BitAboveRange(q, lo, hi - 1);
      BitPairDisjoint(q, hi - 1);
      OrEmpty(Bit(q), RangeMask(lo, hi - 1), Bit(hi - 1));
    }
  }

  /** Adjacent ranges share no bit. */
  lemma {:induction false} RangesDisjoint(a: nat, b: nat, c: nat)
    requires a <= b <= c <= 32
    ensures RangeMask(a, b) & RangeMask(b, c) == 0
    decreases c
  {
    if b < c {
      RangesDisjoint(a, b, c - 1);
      BitAboveRange(c - 1, a, b);
      OrEmpty(RangeMask(a, b), RangeMask(b, c - 1), Bit(c - 1));
    }
  }

  /** The positions 0 .. k - 1 form the mask `(1 << k) - 1`. */
  lemma {:induction false} RangeMaskFromZero(k: nat)
    requires k < 32
    ensures RangeMask(0, k) == Bit(k) - 1
  {
    if k > 0 {
      RangeMaskFromZero(k - 1);
      BitIsShift(k - 1);
      BitIsShift(k);
      ShiftStep(k - 1);
      ShiftLowMask(k - 1);
    }
  }

  // ---------------------------------------------------------------------------
  // The element predicates over appended sequences

  lemma NonZeroAppend(a: seq<bv32>, e: seq<bv32>)
    requires NonZero(a) && NonZero(e)
    ensures NonZero(a + e)
  {
  }

  lemma WithinAppend(a: seq<bv32>, e: seq<bv32>, mask: bv32)
    requires Within(a, mask) && Within(e, mask)
    ensures Within(a + e, mask)
  {
  }

  lemma DisjointAppend(a: seq<bv32>, x: bv32)
    requires Disjoint(a)
    ensures (forall j :: 0 <= j < |a| ==> a[j] & x == 0) ==> Disjoint(a + [x])
  {
  }

  /** The optional new element of one round of the collection loop. */
  function Collected(m: bv32, i: nat): (e: seq<bv32>)
    requires i < 32
    ensures e == [] || e == [Bit(i)]
  {
    if m & Bit(i) != 0 then [Bit(i)] else []
  }

  lemma CollectedEmpty(m: bv32, i: nat)
    requires i < 32
    ensures Collected(m, i) == [] ==> m & Bit(i) == 0
  {
  }

  lemma CollectedTaken(m: bv32, i: nat)
    requires i < 32
    ensures Collected(m, i) != [] ==> Bit(i) & !m == 0
  {
    BitInMask(m, i);
  }

  lemma CollectedNonZero(m: bv32, i: nat)
    requires i < 32
    ensures NonZero(Collected(m, i))
  {
    BitInMask(m, i);
  }

  lemma CollectedInMask(m: bv32, i: nat)
    requires i < 32
    ensures Within(Collected(m, i), m)
  {
    BitInMask(m, i);
  }

  lemma CollectedInBit(m: bv32, i: nat)
    requires i < 32
    ensures Within(Collected(m, i), Bit(i))
  {
    SelfWithin(Bit(i));
  }

  /** Elements inside r followed by elements inside x lie inside r | x. */
  lemma WithinJoin(p: seq<bv32>, e: seq<bv32>, r: bv32, x: bv32)
    requires Within(p, r) && Within(e, x)
    ensures Within(p + e, r | x)
  {
  }

  /** Appending a value disjoint from a mask that holds every element keeps the
      elements pairwise disjoint. */
  lemma DisjointGrow(p: seq<bv32>, r: bv32, x: bv32)
    requires Disjoint(p) && Within(p, r)
    ensures x & r == 0 ==> Disjoint(p + [x])
  {
    if x & r == 0 {
      forall j | 0 <= j < |p|
        ensures p[j] & x == 0
      {
        OutsideDisjoint(p[j], r, x);
      }
      DisjointAppend(p, x);
    }
  }

  // ---------------------------------------------------------------------------
  // Properties of SetBits

  lemma {:induction false} SetBitsLength(m: bv32, lo: nat, hi: nat)
    requires lo <= hi <= 32
    ensures |SetBits(m, lo, hi)| <= hi - lo
    decreases hi
  {
    if lo < hi {
      SetBitsLength(m, lo, hi - 1);
    }
  }

  lemma {:induction false} SetBitsSplit(m: bv32, lo: nat, mid: nat, hi: nat)
    requires lo <= mid <= hi <= 32
    ensures SetBits(m, lo, hi) == SetBits(m, lo, mid) + SetBits(m, mid, hi)
    decreases hi
  {
    if mid < hi {
      SetBitsSplit(m, lo, mid, hi - 1);
      var e := if m & Bit(hi - 1) != 0 then [Bit(hi - 1)] else [];
      assert SetBits(m, lo, hi) == (SetBits(m, lo, mid) + SetBits(m, mid, hi - 1)) + e;
      assert SetBits(m, mid, hi) == SetBits(m, mid, hi - 1) + e;
    }
  }

  lemma NoneStepLow(m: bv32, lo: nat, hi: nat)
    requires lo < hi <= 32
    ensures m & RangeMask(lo, hi) == 0 ==> m & RangeMask(lo, hi - 1) == 0
  {
    OrSplitZero(m, RangeMask(lo, hi - 1), Bit(hi - 1));
  }

  lemma NoneStepBit(m: bv32, lo: nat, hi: nat)
    requires lo < hi <= 32
    ensures m & RangeMask(lo, hi) == 0 ==> m & Bit(hi - 1) == 0
  {
    OrSplitZero(m, RangeMask(lo, hi - 1), Bit(hi - 1));
  }

  /** A range in which `m` has no set bit contributes nothing. */
  lemma {:induction false} SetBitsNone(m: bv32, lo: nat, hi: nat)
    requires lo <= hi <= 32
    requires m & RangeMask(lo, hi) == 0
    ensures SetBits(m, lo, hi) == []
    decreases hi
  {
    if lo < hi {
      NoneStepLow(m, lo, hi);
      NoneStepBit(m, lo, hi);
      SetBitsNone(m, lo, hi - 1);
      assert SetBits(m, lo, hi) == SetBits(m, lo, hi - 1) + [];
    }
  }

  lemma {:induction false} SetBitsNonZero(m: bv32, lo: nat, hi: nat)
    requires lo <= hi <= 32
    ensures NonZero(SetBits(m, lo, hi))
    decreases hi
  {
    if lo < hi {
      SetBitsNonZero(m, lo, hi - 1);
      CollectedNonZero(m, hi - 1);
      NonZeroAppend(SetBits(m, lo, hi - 1), Collected(m, hi - 1));
    }
  }

  /** Every collected bit is a bit of `m`. */
  lemma {:induction false} SetBitsInMask(m: bv32, lo: nat, hi: nat)
    requires lo <= hi <= 32
    ensures Within(SetBits(m, lo, hi), m)
    decreases hi
  {
    if lo < hi {
      SetBitsInMask(m, lo, hi - 1);
      CollectedInMask(m, hi - 1);
      WithinAppend(SetBits(m, lo, hi - 1), Collected(m, hi - 1), m);
    }
  }

  /** Every collected bit lies in the scanned range. */
  lemma {:induction false} SetBitsInRange(m: bv32, lo: nat, hi: nat)
    requires lo <= hi <= 32
    ensures Within(SetBits(m, lo, hi), RangeMask(lo, hi))
    decreases hi
  {
    if lo < hi {
      SetBitsInRange(m, lo, hi - 1);
      CollectedInBit(m, hi - 1);
      WithinJoin(SetBits(m, lo, hi - 1), Collected(m, hi - 1), RangeMask(lo, hi - 1), Bit(hi - 1));
    }
  }

  /** The collected bits are pairwise disjoint. */
  lemma {:induction false} SetBitsDisjoint(m: bv32, lo: nat, hi: nat)
    requires lo <= hi <= 32
    ensures Disjoint(SetBits(m, lo, hi))
    decreases hi
  {
    if lo < hi {
      SetBitsDisjoint(m, lo, hi - 1);
      var p := SetBits(m, lo, hi - 1);
      var e := Collected(m, hi - 1);
      assert SetBits(m, lo, hi) == p + e;
      if e != [] {
        SetBitsInRange(m, lo, hi - 1);
        BitAboveRange(hi - 1, lo, hi - 1);
        DisjointGrow(p, RangeMask(lo, hi - 1), Bit(hi - 1));
      } else {
        assert p + e == p;
      }
    }
  }

  // ---------------------------------------------------------------------------
  // Properties of Select

  lemma {:induction false} SelectNone(bits: seq<bv32>, i: nat)
    requires i <= |bits|
    ensures Select(bits, 0, i) == 0
  {
    if i > 0 {
      SelectNone(bits, i - 1);
      CounterBitZero(i - 1);
    }
  }

  /** A selection of elements inside `mask` lies inside `mask`. */
  lemma {:induction false} SelectWithin(bits: seq<bv32>, c: nat, i: nat, mask: bv32)
    requires i <= |bits|
    requires Within(bits, mask)
    ensures Select(bits, c, i) & !mask == 0
  {
    if i > 0 {
      SelectWithin(bits, c, i - 1, mask);
      if CounterBit(c, i - 1) {
        OrWithin(Select(bits, c, i - 1), bits[i - 1], mask);
      } else {
        assert Select(bits, c, i) == Select(bits, c, i - 1);
      }
    }
  }

  /** A selection among the first i elements shares no bit with a later element. */
  lemma {:induction false} SelectAvoids(bits: seq<bv32>, c: nat, i: nat, k: nat)
    requires i <= k < |bits|
    requires Disjoint(bits)
    ensures Select(bits, c, i) & bits[k] == 0
  {
    if i > 0 {
      SelectAvoids(bits, c, i - 1, k);
      if CounterBit(c, i - 1) {
        DisjointAt(bits, i - 1, k);
        OrAvoids(Select(bits, c, i - 1), bits[i - 1], bits[k]);
      } else {
        assert Select(bits, c, i) == Select(bits, c, i - 1);
      }
    }
  }

  /** Masking a selection with element k gives back that element when bit k of the
      counter is set ... */
  lemma {:induction false} SelectDecodeSet(bits: seq<bv32>, c: nat, i: nat, k: nat)
    requires k < i <= |bits|
    requires Disjoint(bits) && CounterBit(c, k)
    ensures Select(bits, c, i) & bits[k] == bits[k]
  {
    if k == i - 1 {
      assert bits[k] == bits[i - 1] && CounterBit(c, i - 1);
      SelectAvoids(bits, c, i - 1, i - 1);
      OrAdds(Select(bits, c, i - 1), bits[i - 1]);
    } else {
      SelectDecodeSet(bits, c, i - 1, k);
      if CounterBit(c, i - 1) {
        DisjointAt(bits, k, i - 1);
        OrKeeps(Select(bits, c, i - 1), bits[i - 1], bits[k]);
      } else {
        assert Select(bits, c, i) == Select(bits, c, i - 1);
      }
    }
  }

  /** ... and nothing when it is clear. */
  lemma {:induction false} SelectDecodeClear(bits: seq<bv32>, c: nat, i: nat, k: nat)
    requires k < i <= |bits|
    requires Disjoint(bits) && !CounterBit(c, k)
    ensures Select(bits, c, i) & bits[k] == 0
  {
    if k == i - 1 {
      assert bits[k] == bits[i - 1] && !CounterBit(c, i - 1);
      SelectAvoids(bits, c, i - 1, i - 1);
    } else {
      SelectDecodeClear(bits, c, i - 1, k);
      if CounterBit(c, i - 1) {
        DisjointAt(bits, k, i - 1);
        OrKeeps(Select(bits, c, i - 1), bits[i - 1], bits[k]);
      } else {
        assert Select(bits, c, i) == Select(bits, c, i - 1);
      }
    }
  }

  /** The counter can be read back from its selection: bit k of `c` is set exactly
      when the selection contains element k. */
  lemma SelectRecover(bits: seq<bv32>, c: nat, k: nat)
    requires k < |bits|
    requires NonZero(bits) && Disjoint(bits)
    ensures CounterBit(c, k) <==> Select(bits, c, |bits|) & bits[k] != 0
  {
    if CounterBit(c, k) {
      SelectDecodeSet(bits, c, |bits|, k);
    } else {
      SelectDecodeClear(bits, c, |bits|, k);
    }
  }

  /** Counters with equal selections agree on every bit below |bits|. */
  lemma SelectAgree(bits: seq<bv32>, c1: nat, c2: nat, k: nat)
    requires k < |bits|
    requires NonZero(bits) && Disjoint(bits)
    requires Select(bits, c1, |bits|) == Select(bits, c2, |bits|)
    ensures CounterBit(c1, k) == CounterBit(c2, k)
  {
    SelectRecover(bits, c1, k);
    SelectRecover(bits, c2, k);
  }

  /** Distinct counters below 2^|bits| select distinct values. */
  lemma SelectInjective(bits: seq<bv32>, c1: nat, c2: nat)
    requires NonZero(bits) && Disjoint(bits)
    requires c1 < Pow2(|bits|) && c2 < Pow2(|bits|)
    requires Select(bits, c1, |bits|) == Select(bits, c2, |bits|)
    ensures c1 == c2
  {
    forall k | 0 <= k < |bits|
      ensures CounterBit(c1, k) == CounterBit(c2, k)
    {
      SelectAgree(bits, c1, c2, k);
    }
    CounterBitsDetermine(c1, c2, |bits|);
  }

  /** The inner accumulation as the mapper writes it: start from `base` and OR in the
      selected elements. */
  function SelectFrom(base: bv32, bits: seq<bv32>, c: nat, i: nat): bv32
    requires i <= |bits|
  {
    if i == 0 then base
    else if CounterBit(c, i - 1) then SelectFrom(base, bits, c, i - 1) | bits[i - 1]
    else SelectFrom(base, bits, c, i - 1)
  }

  /** Starting from 0 is the plain selection. */
  lemma {:induction false} SelectFromZero(bits: seq<bv32>, c: nat, i: nat)
    requires i <= |bits|
    ensures SelectFrom(0, bits, c, i) == Select(bits, c, i)
  {
    if i > 0 {
      SelectFromZero(bits, c, i - 1);
    }
  }

  /** Starting from `base` is the same as OR-ing `base` onto the selection. */
  lemma {:induction false} SelectFromIsOr(base: bv32, bits: seq<bv32>, c: nat, i: nat)
    requires i <= |bits|
    ensures SelectFrom(base, bits, c, i) == base | Select(bits, c, i)
  {
    if i == 0 {
      OrZero(base);
    } else {
      SelectFromIsOr(base, bits, c, i - 1);
      if CounterBit(c, i - 1) {
        SelectFromTaken(base, bits, c, i);
      } else {
        SelectFromSkipped(base, bits, c, i);
      }
    }
  }

  lemma SelectFromTaken(base: bv32, bits: seq<bv32>, c: nat, i: nat)
    requires 0 < i <= |bits| && CounterBit(c, i - 1)
    ensures SelectFrom(base, bits, c, i - 1) == base | Select(bits, c, i - 1)
      ==> SelectFrom(base, bits, c, i) == base | Select(bits, c, i)
  {
    OrRegroup(base, Select(bits, c, i - 1), bits[i - 1], SelectFrom(base, bits, c, i - 1));
  }

  lemma SelectFromSkipped(base: bv32, bits: seq<bv32>, c: nat, i: nat)
    requires 0 < i <= |bits| && !CounterBit(c, i - 1)
    ensures SelectFrom(base, bits, c, i - 1) == base | Select(bits, c, i - 1)
      ==> SelectFrom(base, bits, c, i) == base | Select(bits, c, i)
  {
  }

  /** A selection among the first i elements does not look past them. */
  lemma {:induction false} SelectPrefix(p: seq<bv32>, e: seq<bv32>, c: nat, i: nat)
    requires i <= |p|
    ensures Select(p + e, c, i) == Select(p, c, i)
  {
    if i > 0 {
      SelectPrefix(p, e, c, i - 1);
      assert (p + e)[i - 1] == p[i - 1];
    }
  }

  /** Counter `c` selects every bit that `m` has in lo .. hi - 1. */
  ghost predicate SelectsAll(m: bv32, lo: nat, hi: nat, c: nat)
    requires lo <= hi <= 32
  {
    Select(SetBits(m, lo, hi), c, |SetBits(m, lo, hi)|) == m & RangeMask(lo, hi)
  }

  /** The last counter value 2^n - 1, whose n low bits are all set, selects every
      collected bit: the selection is `m` restricted to the scanned range. */
  lemma {:induction false} SelectAllSet(m: bv32, lo: nat, hi: nat, n: nat)
    requires lo <= hi <= 32
    requires |SetBits(m, lo, hi)| <= n
    ensures SelectsAll(m, lo, hi, Pow2(n) - 1)
    decreases hi
  {
    if lo < hi {
      assert |SetBits(m, lo, hi)| == |SetBits(m, lo, hi - 1)| + |Collected(m, hi - 1)|;
      SelectAllSet(m, lo, hi - 1, n);
      if Collected(m, hi - 1) == [] {
        SelectAllSkipped(m, lo, hi, Pow2(n) - 1);
      } else {
        CounterBitAllOnes(n, |SetBits(m, lo, hi - 1)|);
        SelectAllTaken(m, lo, hi, Pow2(n) - 1);
      }
    } else {
      SelectAllEmpty(m, lo, Pow2(n) - 1);
    }
  }

  lemma SelectAllEmpty(m: bv32, lo: nat, c: nat)
    requires lo <= 32
    ensures SelectsAll(m, lo, lo, c)
  {
    AndZero(m);
  }

  lemma SelectAllSkipped(m: bv32, lo: nat, hi: nat, c: nat)
    requires lo < hi <= 32 && Collected(m, hi - 1) == []
    ensures SelectsAll(m, lo, hi - 1, c) ==> SelectsAll(m, lo, hi, c)
  {
    assert SetBits(m, lo, hi) == SetBits(m, lo, hi - 1);
    CollectedEmpty(m, hi - 1);
    MaskSkip(m, RangeMask(lo, hi - 1), Bit(hi - 1));
  }

  lemma SelectAllTaken(m: bv32, lo: nat, hi: nat, c: nat)
    requires lo < hi <= 32 && Collected(m, hi - 1) != []
    requires CounterBit(c, |SetBits(m, lo, hi - 1)|)
    ensures SelectsAll(m, lo, hi - 1, c) ==> SelectsAll(m, lo, hi, c)
  {
    var p := SetBits(m, lo, hi - 1);
    assert SetBits(m, lo, hi) == p + [Bit(hi - 1)];
    SelectAllStep(p, Bit(hi - 1), c);
    CollectedTaken(m, hi - 1);
    MaskTake(m, RangeMask(lo, hi - 1), Bit(hi - 1));
  }

  lemma SelectAllStep(p: seq<bv32>, b: bv32, c: nat)
    requires CounterBit(c, |p|)
    ensures Select(p + [b], c, |p| + 1) == Select(p, c, |p|) | b
  {
    SelectPrefix(p, [b], c, |p|);
    assert (p + [b])[|p|] == b;
  }
}
