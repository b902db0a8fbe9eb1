/** What update_mapping builds. A rebuild is described as the list of steps the eight
    slots take for a given board and register file: installing a flat memory range in
    the CPU address map (`SekMapMemory`), installing every mirror of one
    (`map_mirrors`), or recording a soft region that the bus handlers decode by hand
    together with its mirror table (`store_mirrors`). A snapshot holds the mapping log
    and the six soft regions with their mirror tables. */
module Layout {
  import opened Bits
  import opened Mirrors
  import opened Regions
  import opened Options

  // ---------------------------------------------------------------------------
  // The board

  /** The PCB variant field of the hardware code (`HARDWARE_SEGA_PCB_MASK`). */
  datatype Pcb = Pcb5358 | Pcb5358Small | Pcb5521 | Pcb5704 | Pcb5704Ps2 | Pcb5797 | OtherPcb

  /** The parts of the driver's hardware code the mapper looks at: whether the board is
      a System 16B, its PCB, the FD1094 encryption flag and the YM2413 sound flag. */
  datatype Hardware = Hardware(system16B: bool, pcb: Pcb, fd1094: bool, ym2413: bool)

  /** The boards with a 5704 bank latch in slot 2 and a 256 KB ROM 1 in slot 1. */
  predicate BankBoard(pcb: Pcb)
  {
    pcb == Pcb5521 || pcb == Pcb5704 || pcb == Pcb5704Ps2
  }

  // ---------------------------------------------------------------------------
  // The CPU address map

  /** What a mapping points at: the mapper's own handler, a RAM buffer, or a ROM,
      decrypted-code or FD1094 user-region buffer at a byte offset. */
  datatype Buffer =
    | Handler
    | PaletteRam
    | TextRam
    | TileRam
    | SpriteRam
    | WorkRam
    | Rom(offset: bv32)
    | Code(offset: bv32)
    | UserRegion(offset: bv32)

  /** MAP_READ, MAP_FETCH, or MAP_RAM (read, write and fetch). */
  datatype MapMode = Read | Fetch | Ram

  /** One `SekMapMemory` call: a buffer installed over a range. */
  datatype MapRecord = MapRecord(buffer: Buffer, span: Span, mode: MapMode)

  /** The catch-all installed first: the mapper's handler over the whole 24-bit space. */
  const HandlerRecord := MapRecord(Handler, Span(0, 0xFF_FFFF), Ram)

  /** The three kinds of CPU access. */
  datatype Access = ReadAccess | WriteAccess | FetchAccess

  /** A mapping serves an access when its mode includes it. */
  predicate Serves(mode: MapMode, access: Access)
  {
    mode == Ram || (mode == Read && access == ReadAccess) || (mode == Fetch && access == FetchAccess)
  }

  /** The mapping serves access at `a`. */
  predicate Covers(rec: MapRecord, a: bv32, access: Access)
  {
    Serves(rec.mode, access) && Contains(rec.span, a)
  }

  /** The mapping in effect for an access at `a`: a later installation replaces an
      earlier one, so it is the last record that covers the address. */
  function Visible(records: seq<MapRecord>, a: bv32, access: Access): (r: Option<MapRecord>)
    ensures r.Some? ==> Covers(r.value, a, access)
  {
    if |records| == 0 then None
    else if Covers(records[|records| - 1], a, access) then Some(records[|records| - 1])
    else Visible(records[..|records| - 1], a, access)
  }

  /** Nothing installed before a mapping that covers the address is visible after it. */
  lemma {:induction false} VisibleAfterCover(p: seq<MapRecord>, x: seq<MapRecord>, a: bv32, access: Access)
    requires |x| > 0 && Covers(x[0], a, access)
    ensures Visible(p + x, a, access) == Visible(x, a, access)
    decreases |x|
  {
    var n := |x|;
    assert (p + x)[..|p + x| - 1] == p + x[..n - 1];
    if !Covers(x[n - 1], a, access) {
      assert n > 1;
      VisibleAfterCover(p, x[..n - 1], a, access);
    }
  }

  /** Every record of one map_mirrors call: the buffer over each alias. */
  function Installs(buffer: Buffer, mode: MapMode, spans: seq<Span>): (r: seq<MapRecord>)
    ensures |r| == |spans|
    ensures forall i :: 0 <= i < |spans| ==> r[i] == MapRecord(buffer, spans[i], mode)
  {
    seq(|spans|, i requires 0 <= i < |spans| => MapRecord(buffer, spans[i], mode))
  }

  /** One more alias adds its record at the end. */
  lemma InstallsSnoc(buffer: Buffer, mode: MapMode, spans: seq<Span>, sp: Span)
    ensures Installs(buffer, mode, spans + [sp]) == Installs(buffer, mode, spans) + [MapRecord(buffer, sp, mode)]
  {
  }

  // ---------------------------------------------------------------------------
  // The soft regions

  /** The six regions the bus handlers decode themselves. */
  datatype RegionKind = Io | Tiles | Bank5704 | KoreanSound | Math1 | Math2

  /** Row of a region kind in the start, end and mirror tables. */
  function KindIndex(kind: RegionKind): (i: nat)
    ensures i < 6
  {
    match kind
    case Io => 0
    case Tiles => 1
    case Bank5704 => 2
    case KoreanSound => 3
    case Math1 => 4
    case Math2 => 5
  }

  /** Different kinds have different rows. */
  lemma KindIndexInjective(j: RegionKind, k: RegionKind)
    ensures KindIndex(j) == KindIndex(k) ==> j == k
  {
  }

  /** The mapping log, and per region kind: the primary start and end and 32-entry
      mirror start and end tables. A start of 0 marks an unused entry. */
  datatype Snapshot = Snapshot(
    records: seq<MapRecord>,
    starts: seq<bv32>,
    ends: seq<bv32>,
    mirrorStarts: seq<seq<bv32>>,
    mirrorEnds: seq<seq<bv32>>)

  /** Six regions, each with two 32-entry mirror tables (MAX_MIRRORS). */
  predicate Shaped(s: Snapshot)
  {
    |s.starts| == 6 && |s.ends| == 6 && |s.mirrorStarts| == 6 && |s.mirrorEnds| == 6
    && (forall k :: 0 <= k < 6 ==> |s.mirrorStarts[k]| == 32)
    && (forall k :: 0 <= k < 6 ==> |s.mirrorEnds[k]| == 32)
  }

  /** `n` zero words. */
  function Zeros(n: nat): (r: seq<bv32>)
    ensures |r| == n && forall i :: 0 <= i < n ==> r[i] == 0
  {
    seq(n, i => 0)
  }

  /** Every soft region and mirror entry zeroed, with the log as given. */
  function Cleared(records: seq<MapRecord>): (s: Snapshot)
    ensures Shaped(s) && s.records == records
    ensures forall k :: 0 <= k < 6 ==> s.starts[k] == 0 && s.ends[k] == 0
    ensures forall k, l :: 0 <= k < 6 && 0 <= l < 32 ==> s.mirrorStarts[k][l] == 0 && s.mirrorEnds[k][l] == 0
  {
    Snapshot(records, Zeros(6), Zeros(6), seq(6, k => Zeros(32)), seq(6, k => Zeros(32)))
  }

  /** A mirror table after store_mirrors(base, m), entry by entry. */
  function StoredRow(row: seq<bv32>, base: bv32, m: bv32): (r: seq<bv32>)
    ensures |r| == |row|
    ensures forall l :: 0 <= l < |row| ==> r[l] == StoredEntry(row[l], base, m, l)
  {
    seq(|row|, l requires 0 <= l < |row| => StoredEntry(row[l], base, m, l))
  }

  /** store_mirrors with no mirror bits leaves the table as it was. */
  lemma StoredRowUnmirrored(row: seq<bv32>, base: bv32)
    ensures StoredRow(row, base, 0) == row
  {
  }

  /** A mirror table part way through store_mirrors: PassEntry for every entry. */
  function PassTable(row: seq<bv32>, base: bv32, m: bv32, hc: nat, lc: nat): (r: seq<bv32>)
    ensures |r| == |row|
    ensures forall l :: 0 <= l < |row| ==> r[l] == PassEntry(row[l], base, m, hc, lc, l)
  {
    seq(|row|, l requires 0 <= l < |row| => PassEntry(row[l], base, m, hc, lc, l))
  }

  /** Before the first store the table is as it was ... */
  lemma PassTableStart(row: seq<bv32>, base: bv32, m: bv32)
    ensures PassTable(row, base, m, 0, 0) == row
  {
  }

  /** ... each store of pass hc writes entry lc ... */
  lemma PassTableStep(row: seq<bv32>, base: bv32, m: bv32, hc: nat, lc: nat, lbase: bv32)
    ensures (lc < |row| && lbase == Offset(m, hc, lc)) ==>
      PassTable(row, base, m, hc, lc + 1) == PassTable(row, base, m, hc, lc)[lc := Add32(base, lbase)]
  {
    if lc < |row| && lbase == Offset(m, hc, lc) {
      var u, v := PassTable(row, base, m, hc, lc + 1), PassTable(row, base, m, hc, lc)[lc := Add32(base, lbase)];
      forall l | 0 <= l < |row|
        ensures u[l] == v[l]
      {
        PassEntryStep(row[l], base, m, hc, lc, l, lbase);
      }
    }
  }

  /** ... a finished low pass is the start of the next high pass ... */
  lemma PassTableNext(row: seq<bv32>, base: bv32, m: bv32, hc: nat)
    ensures PassTable(row, base, m, hc, LowCount(m)) == PassTable(row, base, m, hc + 1, 0)
  {
    forall l | 0 <= l < |row|
      ensures PassTable(row, base, m, hc, LowCount(m))[l] == PassTable(row, base, m, hc + 1, 0)[l]
    {
      PassEntryNext(row[l], base, m, hc, l);
    }
  }

  /** ... and after the last high pass the table is StoredRow. */
  lemma PassTableDone(row: seq<bv32>, base: bv32, m: bv32)
    requires m != 0
    ensures PassTable(row, base, m, HighCount(m), 0) == StoredRow(row, base, m)
  {
    forall l | 0 <= l < |row|
      ensures PassTable(row, base, m, HighCount(m), 0)[l] == StoredRow(row, base, m)[l]
    {
      PassEntryDone(row[l], base, m, l);
    }
  }

  // ---------------------------------------------------------------------------
  // Steps

  /** What one slot does with a computed region. */
  datatype Step =
    | Install(buffer: Buffer, region: Region, mode: MapMode)
    | InstallMirrors(buffer: Buffer, region: Region, mode: MapMode)
    | Store(kind: RegionKind, region: Region)

  /** The records a step adds to the mapping log. */
  function StepRecords(step: Step): seq<MapRecord>
  {
    match step
    case Install(b, r, mode) => [MapRecord(b, Span(r.start, r.end), mode)]
    case InstallMirrors(b, r, mode) => Installs(b, mode, Aliases(r.start, r.end, r.mirror))
    case Store(_, _) => []
  }

  /** A snapshot after one step: an installation extends the log; a store sets the
      region's primary bounds and writes its mirror tables, touching no other kind. */
  function Apply(s: Snapshot, step: Step): (t: Snapshot)
    requires Shaped(s)
    ensures Shaped(t)
    ensures t.records == s.records + StepRecords(step)
  {
    match step
    case Install(_, _, _) => s.(records := s.records + StepRecords(step))
    case InstallMirrors(_, _, _) => s.(records := s.records + StepRecords(step))
    case Store(kind, r) =>
      var k := KindIndex(kind);
      s.(starts := s.starts[k := r.start], ends := s.ends[k := r.end],
         mirrorStarts := s.mirrorStarts[k := StoredRow(s.mirrorStarts[k], r.start, r.mirror)],
         mirrorEnds := s.mirrorEnds[k := StoredRow(s.mirrorEnds[k], r.end, r.mirror)])
  }

  /** The steps taken in order. */
  function ApplySteps(s: Snapshot, steps: seq<Step>): (t: Snapshot)
    requires Shaped(s)
    ensures Shaped(t)
    decreases |steps|
  {
    if |steps| == 0 then s
    else Apply(ApplySteps(s, steps[..|steps| - 1]), steps[|steps| - 1])
  }

  /** The records of a list of steps, concatenated. */
  function StepsRecords(steps: seq<Step>): seq<MapRecord>
    decreases |steps|
  {
    if |steps| == 0 then [] else StepsRecords(steps[..|steps| - 1]) + StepRecords(steps[|steps| - 1])
  }

  /** Running two lists is running their concatenation. */
  lemma {:induction false} ApplyAppend(s: Snapshot, a: seq<Step>, b: seq<Step>)
    requires Shaped(s)
    ensures ApplySteps(s, a + b) == ApplySteps(ApplySteps(s, a), b)
    decreases |b|
  {
    if |b| > 0 {
      assert (a + b)[..|a + b| - 1] == a + b[..|b| - 1];
      assert (a + b)[|a + b| - 1] == b[|b| - 1];
      ApplyAppend(s, a, b[..|b| - 1]);
    } else {
      assert a + b == a;
    }
  }

  /** Running one more step. */
  lemma ApplyOneMore(s: Snapshot, a: seq<Step>, step: Step)
    requires Shaped(s)
    ensures ApplySteps(s, a + [step]) == Apply(ApplySteps(s, a), step)
  {
    assert (a + [step])[..|a|] == a;
  }

  /** Running x and then y from where x left off is running x + y. */
  lemma Then(s0: Snapshot, x: seq<Step>, s1: Snapshot, y: seq<Step>, s2: Snapshot)
    requires Shaped(s0) && Shaped(s1)
    ensures (s1 == ApplySteps(s0, x) && s2 == ApplySteps(s1, y)) ==> s2 == ApplySteps(s0, x + y)
  {
    ApplyAppend(s0, x, y);
  }

  /** Running a list of one, two or four steps. */
  lemma ApplyOne(s: Snapshot, a: Step)
    requires Shaped(s)
    ensures ApplySteps(s, [a]) == Apply(s, a)
  {
    assert [a][..0] == [];
  }

  lemma ApplyPair(s: Snapshot, a: Step, b: Step)
    requires Shaped(s)
    ensures ApplySteps(s, [a, b]) == Apply(Apply(s, a), b)
  {
    assert [a, b][..1] == [a];
    ApplyOne(s, a);
  }

  lemma ApplyQuad(s: Snapshot, a: Step, b: Step, c: Step, d: Step)
    requires Shaped(s)
    ensures ApplySteps(s, [a, b, c, d]) == Apply(Apply(Apply(Apply(s, a), b), c), d)
  {
    assert [a, b, c, d][..3] == [a, b, c];
    assert [a, b, c][..2] == [a, b];
    ApplyPair(s, a, b);
  }

  /** The log after running steps is the old log followed by their records. */
  lemma {:induction false} ApplyRecords(s: Snapshot, steps: seq<Step>)
    requires Shaped(s)
    ensures ApplySteps(s, steps).records == s.records + StepsRecords(steps)
    decreases |steps|
  {
    if |steps| > 0 {
      var init, last := steps[..|steps| - 1], steps[|steps| - 1];
      ApplyRecords(s, init);
      AppendAssoc(s.records, StepsRecords(init), StepRecords(last));
    }
  }

  lemma AppendAssoc(a: seq<MapRecord>, b: seq<MapRecord>, c: seq<MapRecord>)
    ensures a + b + c == a + (b + c)
  {
  }

  /** The soft regions after running steps do not depend on the log they started with. */
  lemma {:induction false} ApplyTables(s: Snapshot, records: seq<MapRecord>, steps: seq<Step>)
    requires Shaped(s)
    ensures ApplySteps(s.(records := records), steps)
      == ApplySteps(s, steps).(records := ApplySteps(s.(records := records), steps).records)
    decreases |steps|
  {
    if |steps| > 0 {
      ApplyTables(s, records, steps[..|steps| - 1]);
    }
  }

  // ---------------------------------------------------------------------------
  // The slots

  /** compute_region for slot `index` of the register file. */
  function SlotRegion(regs: seq<bv8>, index: nat, length: bv32, mirror: bv32, offset: bv32): Region
    requires |regs| == 32 && index < 8
  {
    ComputeRegion(regs[0x10 + 2 * index], regs[0x11 + 2 * index], length, mirror, offset)
  }

  /** The buffer code is fetched from: the FD1094 user region on encrypted boards,
      the decrypted code otherwise. */
  function FetchBuffer(hw: Hardware, offset: bv32): Buffer
  {
    if hw.fd1094 then UserRegion(offset) else Code(offset)
  }

  /** A ROM window: the ROM read-only, then the code buffer for fetches, each with its
      mirrors when `mirrored`. */
  function RomSteps(hw: Hardware, r: Region, offset: bv32, mirrored: bool): seq<Step>
  {
    if mirrored then
      [Install(Rom(offset), r, Read), InstallMirrors(Rom(offset), r, Read),
       Install(FetchBuffer(hw, offset), r, Fetch), InstallMirrors(FetchBuffer(hw, offset), r, Fetch)]
    else
      [Install(Rom(offset), r, Read), Install(FetchBuffer(hw, offset), r, Fetch)]
  }

  /** The steps of an `if`. */
  function When(c: bool, steps: seq<Step>): seq<Step>
  {
    if c then steps else []
  }

  /** The `switch (index)` of update_mapping: what slot `index` backs on this board. */
  function SlotSteps(hw: Hardware, regs: seq<bv8>, index: nat): seq<Step>
    requires |regs| == 32 && index < 8
  {
    if index == 7 then
      [Store(Io, SlotRegion(regs, 7, 0x4000, 0xFF_C000, 0))]
    else if index == 6 then
      var r := SlotRegion(regs, 6, 0x1000, 0xFF_F000, 0);
      [Install(PaletteRam, r, Ram), InstallMirrors(PaletteRam, r, Ram)]
    else if index == 5 then
      var text := SlotRegion(regs, 5, 0x1000, 0xFE_F000, 0x1_0000);
      var tile := SlotRegion(regs, 5, 0x1_0000, 0xFE_0000, 0);
      [Install(TextRam, text, Ram), InstallMirrors(TextRam, text, Ram),
       Install(TileRam, tile, Read), Store(Tiles, tile)]
    else if index == 4 then
      var r := SlotRegion(regs, 4, 0x800, 0xFF_F800, 0);
      [Install(SpriteRam, r, Ram), InstallMirrors(SpriteRam, r, Ram)]
    else if index == 3 then
      Slot3Steps(hw, regs)
    else if index == 2 then
      Slot2Steps(hw, regs)
    else if index == 1 then
      Slot1Steps(hw, regs)
    else
      Slot0Steps(hw, regs)
  }

  /** Slot 3: the work RAM, 256 KB without mirrors on the 5704 PS2 board. */
  function Slot3Steps(hw: Hardware, regs: seq<bv8>): seq<Step>
    requires |regs| == 32
  {
    if hw.pcb == Pcb5704Ps2 then
      [Install(WorkRam, SlotRegion(regs, 3, 0x4_0000, 0xFFFC_0000, 0), Ram)]
    else
      var r := SlotRegion(regs, 3, 0x4000, 0xFFFF_C000, 0);
      [Install(WorkRam, r, Ram), InstallMirrors(WorkRam, r, Ram)]
  }

  /** Slot 2: the upper ROM of the 5358 boards, the 5704 bank latch, and the second
      315-5797 window except on YM2413 boards. */
  function Slot2Steps(hw: Hardware, regs: seq<bv8>): seq<Step>
    requires |regs| == 32
  {
    When(hw.pcb == Pcb5358Small, RomSteps(hw, SlotRegion(regs, 2, 0x2_0000, 0xFE_0000, 0), 0x2_0000, false))
    + When(hw.pcb == Pcb5358, RomSteps(hw, SlotRegion(regs, 2, 0x2_0000, 0xFE_0000, 0), 0x4_0000, false))
    + When(BankBoard(hw.pcb), [Store(Bank5704, SlotRegion(regs, 2, 0x1_0000, 0xFF_0000, 0))])
    + When(!hw.ym2413 && hw.pcb == Pcb5797, [Store(Math2, SlotRegion(regs, 2, 0x1_0000, 0xFF_0000, 0))])
  }

  /** Slot 1: the second ROM of each board, the YM2413 ports and the first 315-5797
      window. */
  function Slot1Steps(hw: Hardware, regs: seq<bv8>): seq<Step>
    requires |regs| == 32
  {
    When(hw.pcb == Pcb5358Small, RomSteps(hw, SlotRegion(regs, 1, 0x2_0000, 0xFE_0000, 0), 0x1_0000, true))
    + When(hw.pcb == Pcb5358, RomSteps(hw, SlotRegion(regs, 1, 0x2_0000, 0xFE_0000, 0), 0x2_0000, true))
    + When(BankBoard(hw.pcb), RomSteps(hw, SlotRegion(regs, 1, 0x4_0000, 0xFC_0000, 0), 0x4_0000, true))
    + When(hw.ym2413, [Store(KoreanSound, SlotRegion(regs, 1, 0x1_0000, 0xFF_0000, 0))])
    + When(hw.pcb == Pcb5797, [Store(Math1, SlotRegion(regs, 1, 0x4000, 0xFF_C000, 0))])
  }

  /** Slot 0: the first ROM, sized by the board. */
  function Slot0Steps(hw: Hardware, regs: seq<bv8>): seq<Step>
    requires |regs| == 32
  {
    When(hw.pcb == Pcb5358 || hw.pcb == Pcb5358Small, RomSteps(hw, SlotRegion(regs, 0, 0x2_0000, 0xFE_0000, 0), 0, true))
    + When(BankBoard(hw.pcb), RomSteps(hw, SlotRegion(regs, 0, 0x4_0000, 0xFC_0000, 0), 0, true))
    + When(hw.ym2413, RomSteps(hw, SlotRegion(regs, 0, 0x4_0000, 0xFC_0000, 0), 0, true))
    + When(hw.pcb == Pcb5797, RomSteps(hw, SlotRegion(regs, 0, 0x8_0000, 0xF8_0000, 0), 0, true))
  }

  /** The steps of slots 7 down to `n`, each taken only on a System 16B. */
  function StepsFrom(hw: Hardware, regs: seq<bv8>, n: nat): seq<Step>
    requires |regs| == 32 && n <= 8
    decreases 8 - n, regs  // regs is listed so that the verifier unrolls only for known registers
  {
    if n == 8 then [] else StepsFrom(hw, regs, n + 1) + When(hw.system16B, SlotSteps(hw, regs, n))
  }

  /** update_mapping: the catch-all handler appended to the log, every soft region
      cleared, then the steps of slots 7 down to 0. */
  function Rebuild(hw: Hardware, regs: seq<bv8>, records: seq<MapRecord>): (s: Snapshot)
    requires |regs| == 32
    ensures Shaped(s)
  {
    ApplySteps(Cleared(records + [HandlerRecord]), StepsFrom(hw, regs, 0))
  }

  // ---------------------------------------------------------------------------
  // Properties of a rebuild

  /** The steps of slots 7 down to n are empty on a board that is not a System 16B. */
  lemma {:induction false} StepsFromEmpty(hw: Hardware, regs: seq<bv8>, n: nat)
    requires |regs| == 32 && n <= 8
    requires !hw.system16B
    ensures StepsFrom(hw, regs, n) == []
    decreases 8 - n
  {
    if n < 8 {
      StepsFromEmpty(hw, regs, n + 1);
    }
  }

  /** On a board that is not a System 16B, a rebuild leaves every soft region and
      mirror entry at 0 and installs nothing but the catch-all handler. */
  lemma NotSystem16BCleared(hw: Hardware, regs: seq<bv8>, records: seq<MapRecord>)
    requires |regs| == 32
    requires !hw.system16B
    ensures Rebuild(hw, regs, records) == Cleared(records + [HandlerRecord])
  {
    StepsFromEmpty(hw, regs, 0);
  }

  /** A slot reads only its two descriptor bytes ... */
  lemma SlotStepsDescriptors(hw: Hardware, r1: seq<bv8>, r2: seq<bv8>, index: nat)
    requires |r1| == 32 && |r2| == 32 && index < 8
    requires r1[0x10..] == r2[0x10..]
    ensures SlotSteps(hw, r1, index) == SlotSteps(hw, r2, index)
  {
    assert r1[0x10 + 2 * index] == r1[0x10..][2 * index];
    assert r1[0x11 + 2 * index] == r1[0x10..][2 * index + 1];
    assert r2[0x10 + 2 * index] == r2[0x10..][2 * index];
    assert r2[0x11 + 2 * index] == r2[0x10..][2 * index + 1];
  }

  lemma {:induction false} StepsFromDescriptors(hw: Hardware, r1: seq<bv8>, r2: seq<bv8>, n: nat)
    requires |r1| == 32 && |r2| == 32 && n <= 8
    requires r1[0x10..] == r2[0x10..]
    ensures StepsFrom(hw, r1, n) == StepsFrom(hw, r2, n)
    decreases 8 - n
  {
    if n < 8 {
      StepsFromDescriptors(hw, r1, r2, n + 1);
      SlotStepsDescriptors(hw, r1, r2, n);
    }
  }

  /** ... so a rebuild depends on the board and registers 0x10 .. 0x1F alone. */
  lemma RebuildDescriptors(hw: Hardware, r1: seq<bv8>, r2: seq<bv8>, records: seq<MapRecord>)
    requires |r1| == 32 && |r2| == 32
    requires r1[0x10..] == r2[0x10..]
    ensures Rebuild(hw, r1, records) == Rebuild(hw, r2, records)
  {
    StepsFromDescriptors(hw, r1, r2, 0);
  }

  /** The log after a rebuild: the old log, the catch-all, then the slots' records. */
  lemma RebuildRecords(hw: Hardware, regs: seq<bv8>, records: seq<MapRecord>)
    requires |regs| == 32
    ensures Rebuild(hw, regs, records).records
      == records + ([HandlerRecord] + StepsRecords(StepsFrom(hw, regs, 0)))
  {
    ApplyRecords(Cleared(records + [HandlerRecord]), StepsFrom(hw, regs, 0));
    AppendAssoc(records, [HandlerRecord], StepsRecords(StepsFrom(hw, regs, 0)));
  }

  /** Rebuilding again leaves the same soft regions and mirror tables ... */
  lemma RebuildAgainTables(hw: Hardware, regs: seq<bv8>, records: seq<MapRecord>)
    requires |regs| == 32
    ensures var once := Rebuild(hw, regs, records);
      Rebuild(hw, regs, once.records).(records := once.records) == once
  {
    var once := Rebuild(hw, regs, records);
    var c := Cleared(records + [HandlerRecord]);
    assert Cleared(once.records + [HandlerRecord]) == c.(records := once.records + [HandlerRecord]);
    ApplyTables(c, once.records + [HandlerRecord], StepsFrom(hw, regs, 0));
  }

  /** ... and the same mapping in effect at every address of the 24-bit space: the
      catch-all that opens each rebuild hides everything installed before it. */
  lemma RebuildAgainVisible(hw: Hardware, regs: seq<bv8>, records: seq<MapRecord>, a: bv32, access: Access)
    requires |regs| == 32
    requires a <= 0xFF_FFFF
    ensures var once := Rebuild(hw, regs, records);
      Visible(Rebuild(hw, regs, once.records).records, a, access) == Visible(once.records, a, access)
  {
    var once := Rebuild(hw, regs, records);
    var x := [HandlerRecord] + StepsRecords(StepsFrom(hw, regs, 0));
    RebuildRecords(hw, regs, records);
    RebuildRecords(hw, regs, once.records);
    assert Covers(x[0], a, access);
    VisibleAfterCover(records, x, a, access);
    VisibleAfterCover(once.records, x, a, access);
  }

  /** A store step's mirror mask has no bit below 14, so at most four low mirror bits. */
  predicate StoreFits(step: Step)
  {
    step.Store? ==> step.region.mirror & 0x3FFF == 0
  }

  predicate AllStoresFit(steps: seq<Step>)
  {
    forall i :: 0 <= i < |steps| ==> StoreFits(steps[i])
  }

  lemma AllStoresFitAppend(a: seq<Step>, b: seq<Step>)
    requires AllStoresFit(a) && AllStoresFit(b)
    ensures AllStoresFit(a + b)
  {
    forall i | 0 <= i < |a + b|
      ensures StoreFits((a + b)[i])
    {
      if i >= |a| {
        assert (a + b)[i] == b[i - |a|];
      }
    }
  }

  /** The masks passed with the stored regions (0xFFC000, 0xFE0000, 0xFF0000) keep
      their low 14 bits clear after clipping to the window. */
  lemma StoreMaskClear(size: bv8, base: bv8, length: bv32, mirror: bv32, offset: bv32)
    ensures (mirror == 0xFF_C000 || mirror == 0xFE_0000 || mirror == 0xFF_0000)
      ==> ComputeRegion(size, base, length, mirror, offset).mirror & 0x3FFF == 0
  {
  }

  lemma RomStepsFit(hw: Hardware, r: Region, offset: bv32, mirrored: bool)
    ensures AllStoresFit(RomSteps(hw, r, offset, mirrored))
  {
  }

  lemma StoreStepFits(kind: RegionKind, size: bv8, base: bv8, length: bv32, mirror: bv32)
    requires mirror == 0xFF_C000 || mirror == 0xFE_0000 || mirror == 0xFF_0000
    ensures AllStoresFit([Store(kind, ComputeRegion(size, base, length, mirror, 0))])
  {
    StoreMaskClear(size, base, length, mirror, 0);
  }

  /** Every slot stores regions whose masks fit ... */
  lemma SlotStoresFit(hw: Hardware, regs: seq<bv8>, index: nat)
    requires |regs| == 32 && index < 8
    ensures AllStoresFit(SlotSteps(hw, regs, index))
  {
    var size, base := regs[0x10 + 2 * index], regs[0x11 + 2 * index];
    if index == 7 {
      StoreStepFits(Io, size, base, 0x4000, 0xFF_C000);
    } else if index == 5 {
      StoreMaskClear(size, base, 0x1_0000, 0xFE_0000, 0);
    } else if index == 2 {
      Slot2StoresFit(hw, regs);
    } else if index == 1 {
      Slot1StoresFit(hw, regs);
    } else if index == 0 {
      Slot0StoresFit(hw, regs);
    }
  }

  lemma Slot2StoresFit(hw: Hardware, regs: seq<bv8>)
    requires |regs| == 32
    ensures AllStoresFit(SlotSteps(hw, regs, 2))
  {
    var size, base := regs[0x14], regs[0x15];
      var a := When(hw.pcb == Pcb5358Small, RomSteps(hw, SlotRegion(regs, 2, 0x2_0000, 0xFE_0000, 0), 0x2_0000, false));
      var b := When(hw.pcb == Pcb5358, RomSteps(hw, SlotRegion(regs, 2, 0x2_0000, 0xFE_0000, 0), 0x4_0000, false));
      var c := When(BankBoard(hw.pcb), [Store(Bank5704, SlotRegion(regs, 2, 0x1_0000, 0xFF_0000, 0))]);
      var d := When(!hw.ym2413 && hw.pcb == Pcb5797, [Store(Math2, SlotRegion(regs, 2, 0x1_0000, 0xFF_0000, 0))]);
      RomStepsFit(hw, SlotRegion(regs, 2, 0x2_0000, 0xFE_0000, 0), 0x2_0000, false);
      RomStepsFit(hw, SlotRegion(regs, 2, 0x2_0000, 0xFE_0000, 0), 0x4_0000, false);
      StoreStepFits(Bank5704, size, base, 0x1_0000, 0xFF_0000);
      StoreStepFits(Math2, size, base, 0x1_0000, 0xFF_0000);
      AllStoresFitAppend(a, b);
      AllStoresFitAppend(a + b, c);
      AllStoresFitAppend(a + b + c, d);
  }

  lemma Slot1StoresFit(hw: Hardware, regs: seq<bv8>)
    requires |regs| == 32
    ensures AllStoresFit(SlotSteps(hw, regs, 1))
  {
    var size, base := regs[0x12], regs[0x13];
      var a := When(hw.pcb == Pcb5358Small, RomSteps(hw, SlotRegion(regs, 1, 0x2_0000, 0xFE_0000, 0), 0x1_0000, true));
      var b := When(hw.pcb == Pcb5358, RomSteps(hw, SlotRegion(regs, 1, 0x2_0000, 0xFE_0000, 0), 0x2_0000, true));
      var c := When(BankBoard(hw.pcb), RomSteps(hw, SlotRegion(regs, 1, 0x4_0000, 0xFC_0000, 0), 0x4_0000, true));
      var d := When(hw.ym2413, [Store(KoreanSound, SlotRegion(regs, 1, 0x1_0000, 0xFF_0000, 0))]);
      var e := When(hw.pcb == Pcb5797, [Store(Math1, SlotRegion(regs, 1, 0x4000, 0xFF_C000, 0))]);
      RomStepsFit(hw, SlotRegion(regs, 1, 0x2_0000, 0xFE_0000, 0), 0x1_0000, true);
      RomStepsFit(hw, SlotRegion(regs, 1, 0x2_0000, 0xFE_0000, 0), 0x2_0000, true);
      RomStepsFit(hw, SlotRegion(regs, 1, 0x4_0000, 0xFC_0000, 0), 0x4_0000, true);
      StoreStepFits(KoreanSound, size, base, 0x1_0000, 0xFF_0000);
      StoreStepFits(Math1, size, base, 0x4000, 0xFF_C000);
      AllStoresFitAppend(a, b);
      AllStoresFitAppend(a + b, c);
      AllStoresFitAppend(a + b + c, d);
      AllStoresFitAppend(a + b + c + d, e);
  }

  lemma Slot0StoresFit(hw: Hardware, regs: seq<bv8>)
    requires |regs| == 32
    ensures AllStoresFit(SlotSteps(hw, regs, 0))
  {
    var size, base := regs[0x10], regs[0x11];
      var a := When(hw.pcb == Pcb5358 || hw.pcb == Pcb5358Small, RomSteps(hw, SlotRegion(regs, 0, 0x2_0000, 0xFE_0000, 0), 0, true));
      var b := When(BankBoard(hw.pcb), RomSteps(hw, SlotRegion(regs, 0, 0x4_0000, 0xFC_0000, 0), 0, true));
      var c := When(hw.ym2413, RomSteps(hw, SlotRegion(regs, 0, 0x4_0000, 0xFC_0000, 0), 0, true));
      var d := When(hw.pcb == Pcb5797, RomSteps(hw, SlotRegion(regs, 0, 0x8_0000, 0xF8_0000, 0), 0, true));
      RomStepsFit(hw, SlotRegion(regs, 0, 0x2_0000, 0xFE_0000, 0), 0, true);
      RomStepsFit(hw, SlotRegion(regs, 0, 0x4_0000, 0xFC_0000, 0), 0, true);
      RomStepsFit(hw, SlotRegion(regs, 0, 0x8_0000, 0xF8_0000, 0), 0, true);
      AllStoresFitAppend(a, b);
      AllStoresFitAppend(a + b, c);
      AllStoresFitAppend(a + b + c, d);
  }

  /** ... and so does a whole rebuild. */
  lemma {:induction false} StepsFromFit(hw: Hardware, regs: seq<bv8>, n: nat)
    requires |regs| == 32 && n <= 8
    ensures AllStoresFit(StepsFrom(hw, regs, n))
    decreases 8 - n
  {
    if n < 8 {
      StepsFromFit(hw, regs, n + 1);
      SlotStoresFit(hw, regs, n);
      AllStoresFitAppend(StepsFrom(hw, regs, n + 1), When(hw.system16B, SlotSteps(hw, regs, n)));
    }
  }

  /** A mask with its low 14 bits clear has at most 16 low-group combinations, so the
      32-entry tables hold every index store_mirrors writes. */
  lemma FitsInTable(m: bv32)
    ensures m & 0x3FFF == 0 ==> LowCount(m) <= 16
  {
    LowCountBound(m);
    if |LowBits(m)| <= 4 {
      Pow2Monotone(|LowBits(m)|, 4);
      assert Pow2(4) == 16;
    }
  }
}
