/** The 315-5195 memory mapper as the emulator holds it: the register file, the six
    soft regions with their mirror tables, the log of installations made in the
    CPU address map, and the calls made into the rest of the board. Every method is
    proved against the specification functions of the other modules. */
module Mapper {
  import opened Bits
  import opened Options
  import opened Mirrors
  import opened Regions
  import opened Layout
  import opened Devices
  import opened Registers
  import opened Routing
  import opened Handlers

  /** The System 16 globals the mapper writes (System16TileBanks, the RecalcTileMap
      flags, System16VideoEnable, System16ScreenFlip, System16SoundLatch). */
  class Board {
    const tileBanks: array<int>
    var recalcBg: bool
    var recalcBgAlt: bool
    var recalcFg: bool
    var recalcFgAlt: bool
    var videoEnable: bv8
    var screenFlip: bv8
    var soundLatch: bv8

    ghost predicate Valid()
    {
      tileBanks.Length >= 2
    }

    function State(): (b: BoardState)
      reads this, tileBanks
      ensures |b.tileBanks| == tileBanks.Length
    {
      BoardState(tileBanks[..], recalcBg, recalcBgAlt, recalcFg, recalcFgAlt, videoEnable, screenFlip, soundLatch)
    }

    /** A board with `banks` tile banks, all 0, and every latch clear. */
    constructor (banks: nat)
      requires banks >= 2
      ensures Valid() && fresh(tileBanks)
      ensures State() == BoardState(seq(banks, i => 0), false, false, false, false, 0, 0, 0)
    {
      tileBanks := new int[banks](i => 0);
      recalcBg, recalcBgAlt, recalcFg, recalcFgAlt := false, false, false, false;
      videoEnable, screenFlip, soundLatch := 0, 0, 0;
    }

    /** The body shared by bank_5704_write and group 0x1000 of math1_5797_write. */
    method LatchBank(index: nat, value: int)
      requires index < tileBanks.Length
      modifies this, tileBanks
      ensures State() == SetTileBank(old(State()), index, value)
    {
      if tileBanks[index] != value {
        tileBanks[index] := value;
        recalcBg := true;
        recalcBgAlt := true;
        recalcFg := true;
        recalcFgAlt := true;
      }
    }

    /** sega_315_5195_io_write. */
    method IoWrite(offset: bv32, d: bv8)
      requires Valid()
      modifies this
      ensures State() == ActOnBoard(old(State()), Latch(offset, d))
    {
      if Group(offset) == 0 {
        videoEnable := d & 0x20;
        screenFlip := d & 0x40;
      }
    }

    /** bank_5704_write. */
    method Bank5704Write(offset: bv32, d: bv8)
      requires Valid()
      modifies this, tileBanks
      ensures State() == ActOnBoard(old(State()), Bank(offset, d))
    {
      LatchBank(BankIndex(offset), BankValue(d as bv16));
    }
  }

  /** The primary bound of each of the six soft regions. */
  type Bounds = s: seq<bv32> | |s| == 6 witness [0, 0, 0, 0, 0, 0]

  /** The contents of a list of mirror tables. */
  function Rows(t: seq<array<bv32>>): (r: seq<seq<bv32>>)
    reads t
    ensures |r| == |t|
    ensures forall k :: 0 <= k < |t| ==> r[k] == t[k][..]
  {
    seq(|t|, k requires 0 <= k < |t| reads t => t[k][..])
  }

  /** A fresh MAX_MIRRORS table of zeros. */
  method NewTable() returns (a: array<bv32>)
    ensures fresh(a) && a[..] == Zeros(32)
  {
    a := new bv32[32](l => 0);
  }

  /** The six zeroed tables of one side of the soft regions. */
  method NewTables() returns (t: seq<array<bv32>>)
    ensures |t| == 6
    ensures forall k :: 0 <= k < 6 ==> fresh(t[k]) && t[k][..] == Zeros(32)
    ensures forall i, j :: 0 <= i < 6 && 0 <= j < 6 && i != j ==> t[i] != t[j]
  {
    t := [];
    while |t| < 6
      invariant |t| <= 6
      invariant forall k :: 0 <= k < |t| ==> fresh(t[k]) && t[k][..] == Zeros(32)
      invariant forall i, j :: 0 <= i < |t| && 0 <= j < |t| && i != j ==> t[i] != t[j]
    {
      var a := NewTable();
      t := t + [a];
    }
  }

  /** store_mirrors(store_start, store_end, start, end, mirror): entry lc of each table
      takes the range shifted by the offset of (hc, lc), for every high counter hc in
      turn, so the last high pass is what remains. The source writes index
      `lmirrorcount` of a MAX_MIRRORS table unchecked, so its callers keep the low
      mirror bits few enough. */
  method StoreMirrors(storeStart: array<bv32>, storeEnd: array<bv32>, start: bv32, end: bv32, mirror: bv32)
    requires storeStart != storeEnd
    requires LowCount(mirror) <= storeStart.Length && LowCount(mirror) <= storeEnd.Length
    modifies storeStart, storeEnd
    ensures storeStart[..] == StoredRow(old(storeStart[..]), start, mirror)
    ensures storeEnd[..] == StoredRow(old(storeEnd[..]), end, mirror)
  {
    ghost var rs, re := storeStart[..], storeEnd[..];
    if mirror == 0 {
      StoredRowUnmirrored(rs, start);
      StoredRowUnmirrored(re, end);
      return;
    }
    var low := CollectBits(mirror, 0, 18);
    var high := CollectBits(mirror, 18, 32);
    PassTableStart(rs, start, mirror);
    PassTableStart(re, end, mirror);
    for hc := 0 to Pow2(|high|)
      invariant storeStart[..] == PassTable(rs, start, mirror, hc, 0)
      invariant storeEnd[..] == PassTable(re, end, mirror, hc, 0)
    {
      var hbase := SelectLoop(0, high, hc);
      SelectFromZero(high, hc, |high|);
      StorePass(storeStart, storeEnd, rs, re, start, end, mirror, low, high, hc, hbase);
      PassTableNext(rs, start, mirror, hc);
      PassTableNext(re, end, mirror, hc);
    }
    PassTableDone(rs, start, mirror);
    PassTableDone(re, end, mirror);
  }

  /** One pass of store_mirrors' low loop: entry lc of both tables takes the range
      shifted by the offset of (hc, lc), for every low counter lc. */
  method StorePass(storeStart: array<bv32>, storeEnd: array<bv32>, ghost rs: seq<bv32>, ghost re: seq<bv32>,
                   start: bv32, end: bv32, mirror: bv32, low: seq<bv32>, ghost high: seq<bv32>, hc: nat, hbase: bv32)
    requires storeStart != storeEnd
    requires low == LowBits(mirror) && high == HighBits(mirror) && hbase == Select(high, hc, |high|)
    requires LowCount(mirror) <= storeStart.Length && LowCount(mirror) <= storeEnd.Length
    requires storeStart[..] == PassTable(rs, start, mirror, hc, 0)
    requires storeEnd[..] == PassTable(re, end, mirror, hc, 0)
    modifies storeStart, storeEnd
    ensures storeStart[..] == PassTable(rs, start, mirror, hc, LowCount(mirror))
    ensures storeEnd[..] == PassTable(re, end, mirror, hc, LowCount(mirror))
  {
    for lc := 0 to Pow2(|low|)
      invariant storeStart[..] == PassTable(rs, start, mirror, hc, lc)
      invariant storeEnd[..] == PassTable(re, end, mirror, hc, lc)
    {
      var lbase := SelectLoop(hbase, low, lc);
      RoundOffset(mirror, low, high, hc, lc, hbase, lbase);
      PassTableStep(rs, start, mirror, hc, lc, lbase);
      PassTableStep(re, end, mirror, hc, lc, lbase);
      storeStart[lc] := Add32(start, lbase);
      storeEnd[lc] := Add32(end, lbase);
    }
  }

  /** The mapper (the `chip` struct with the file's statics beside it). The soft
      regions are indexed by KindIndex: starts[k] is `io_start` for k = 0,
      `tile_ram_start` for k = 1 and so on, and startMirrors[k] is the matching
      `_start_mirror` table. */
  class Chip {
    const hw: Hardware
    const board: Board
    const regs: array<bv8>
    const startMirrors: seq<array<bv32>>
    const endMirrors: seq<array<bv32>>
    /** The installations made in the CPU address map, oldest first. */
    var mappings: seq<MapRecord>
    var starts: Bounds
    var ends: Bounds
    /** The calls made into the rest of the board, oldest first. */
    var effects: seq<Effect>
    var openBusRecurse: bool
    var inUser: bool
    /** Whether a driver installed sega_315_5195_custom_io_do / _write_do. */
    var customIo: bool
    var customIoWrite: bool

    /** Thirty-two registers, six soft regions and twelve separate mirror tables. */
    ghost predicate Valid()
    {
      regs.Length == 32 && |startMirrors| == 6 && |endMirrors| == 6
      && (forall k :: 0 <= k < 6 ==> startMirrors[k].Length == 32 && endMirrors[k].Length == 32)
      && (forall i, j :: 0 <= i < 6 && 0 <= j < 6 ==> startMirrors[i] != endMirrors[j])
      && (forall i, j :: 0 <= i < 6 && 0 <= j < 6 && i != j ==>
            startMirrors[i] != startMirrors[j] && endMirrors[i] != endMirrors[j])
      && board.Valid()
    }

    /** The register file, the mirror tables and the board's tile banks are separate
        arrays. */
    ghost predicate Apart()
      requires Valid()
    {
      regs as object != board.tileBanks
      && forall k :: 0 <= k < 6 ==>
           startMirrors[k] as object != board.tileBanks && endMirrors[k] as object != board.tileBanks
           && startMirrors[k] as object != regs && endMirrors[k] as object != regs
    }

    /** The mapping log and the soft regions as a snapshot. */
    function State(): (s: Snapshot)
      requires Valid()
      reads this, startMirrors, endMirrors
      ensures Shaped(s) && s.records == mappings
    {
      Snapshot(mappings, starts, ends, Rows(startMirrors), Rows(endMirrors))
    }

    /** The mapper at load time, before sega_315_5195_init: every register and region
        zero, nothing installed or called yet. */
    constructor (hw: Hardware, board: Board)
      requires board.Valid()
      ensures Valid() && Apart() && this.hw == hw && this.board == board
      ensures fresh(regs) && forall k :: 0 <= k < 6 ==> fresh(startMirrors[k]) && fresh(endMirrors[k])
      ensures regs[..] == seq(32, i => 0) && State() == Cleared([]) && effects == []
      ensures !openBusRecurse && !inUser && !customIo && !customIoWrite
    {
      this.hw := hw;
      this.board := board;
      regs := new bv8[32](i => 0);
      var ss := NewTables();
      var es := NewTables();
      startMirrors, endMirrors := ss, es;
      mappings, starts, ends, effects := [], Zeros(6), Zeros(6), [];
      openBusRecurse, inUser, customIo, customIoWrite := false, false, false, false;
      new;
      ClearedTables(State());
    }

    // -------------------------------------------------------------------------
    // Building the map

    /** SekMapMemory over a computed region. */
    method MapMemory(buffer: Buffer, r: Region, mode: MapMode)
      requires Valid()
      modifies this`mappings
      ensures State() == Apply(old(State()), Layout.Install(buffer, r, mode))
    {
      mappings := mappings + [MapRecord(buffer, Span(r.start, r.end), mode)];
    }

    /** map_mirrors: every alias of the range, high counter outside, low counter inside. */
    method MapMirrors(buffer: Buffer, start: bv32, end: bv32, mirror: bv32, mode: MapMode)
      modifies this`mappings
      ensures mappings == old(mappings) + Installs(buffer, mode, Aliases(start, end, mirror))
    {
      if mirror == 0 {
        assert Aliases(start, end, mirror) == [];
        return;
      }
      var low := CollectBits(mirror, 0, 18);
      var high := CollectBits(mirror, 18, 32);
      ghost var done := mappings;
      ghost var rounds: seq<Pass> := [];
      NoImages(done, buffer, mode, start, end, mirror);

      for hc := 0 to Pow2(|high|)
        invariant rounds == Passes(hc, Pow2(|low|))
        invariant mappings == done + Installs(buffer, mode, Images(start, end, mirror, rounds))
      {
        var hbase := SelectLoop(0, high, hc);
        SelectFromZero(high, hc, |high|);
        ghost var before := rounds;
        for lc := 0 to Pow2(|low|)
          invariant rounds == before + PassRow(hc, lc)
          invariant mappings == done + Installs(buffer, mode, Images(start, end, mirror, rounds))
        {
          var lbase := SelectLoop(hbase, low, lc);
          RoundOffset(mirror, low, high, hc, lc, hbase, lbase);
          MapRound(done, mappings, buffer, mode, start, end, mirror, rounds, hc, lc, lbase);
          PassAssoc(before, PassRow(hc, lc), [Pass(hc, lc)]);
          mappings := mappings + [MapRecord(buffer, Span(Add32(start, lbase), Add32(end, lbase)), mode)];
          rounds := rounds + [Pass(hc, lc)];
        }
        PassesNext(hc, Pow2(|low|));
      }
      RoundsOfLoops(mirror, low, high);
    }

    /** The primary range of a soft region, then its mirror tables. */
    method StoreRegion(kind: RegionKind, r: Region)
      requires Valid() && LowCount(r.mirror) <= 32
      modifies this`starts, this`ends, startMirrors[KindIndex(kind)], endMirrors[KindIndex(kind)]
      ensures State() == Apply(old(State()), Store(kind, r))
    {
      var k := KindIndex(kind);
      ghost var rowsS, rowsE := Rows(startMirrors), Rows(endMirrors);
      starts := starts[k := r.start];
      ends := ends[k := r.end];
      StoreMirrors(startMirrors[k], endMirrors[k], r.start, r.end, r.mirror);
      assert Rows(startMirrors) == rowsS[k := StoredRow(rowsS[k], r.start, r.mirror)];
      assert Rows(endMirrors) == rowsE[k := StoredRow(rowsE[k], r.end, r.mirror)];
    }

    /** A ROM window of update_mapping: the ROM read-only, then the code buffer for
        fetches (the FD1094 user region on encrypted boards), each followed by its
        mirrors when `mirrored`. */
    method InstallRom(r: Region, offset: bv32, mirrored: bool)
      requires Valid()
      modifies this`mappings
      ensures State() == ApplySteps(old(State()), RomSteps(hw, r, offset, mirrored))
    {
      ghost var s0 := State();
      MapMemory(Rom(offset), r, Read);
      if mirrored {
        MapMirrors(Rom(offset), r.start, r.end, r.mirror, Read);
      }
      var fetch := if hw.fd1094 then UserRegion(offset) else Code(offset);
      MapMemory(fetch, r, Fetch);
      if mirrored {
        MapMirrors(fetch, r.start, r.end, r.mirror, Fetch);
        ApplyQuad(s0, Install(Rom(offset), r, Read), InstallMirrors(Rom(offset), r, Read),
          Install(fetch, r, Fetch), InstallMirrors(fetch, r, Fetch));
      } else {
        ApplyPair(s0, Install(Rom(offset), r, Read), Install(fetch, r, Fetch));
      }
    }

    /** One region store of update_mapping: `chip.X_start = region_start`,
        `chip.X_end = region_end`, then store_mirrors into the kind's tables. The masks
        the source passes keep the low mirror bits few enough for the tables. */
    method StoreSlot(rs: seq<bv8>, kind: RegionKind, index: nat, length: bv32, mirror: bv32)
      requires Valid() && |rs| == 32 && index < 8
      requires mirror == 0xFF_C000 || mirror == 0xFE_0000 || mirror == 0xFF_0000
      modifies this`starts, this`ends, startMirrors, endMirrors
      ensures State() == ApplySteps(old(State()), [Store(kind, SlotRegion(rs, index, length, mirror, 0))])
    {
      var r := SlotRegion(rs, index, length, mirror, 0);
      StoreMaskClear(rs[0x10 + 2 * index], rs[0x11 + 2 * index], length, mirror, 0);
      FitsInTable(r.mirror);
      ApplyOne(State(), Store(kind, r));
      StoreRegion(kind, r);
    }

    /** A ROM window taken only when `c` holds. */
    method InstallRomWhen(c: bool, r: Region, offset: bv32, mirrored: bool)
      requires Valid()
      modifies this`mappings
      ensures State() == ApplySteps(old(State()), When(c, RomSteps(hw, r, offset, mirrored)))
    {
      if c {
        InstallRom(r, offset, mirrored);
      }
    }

    /** A region store taken only when `c` holds. */
    method StoreSlotWhen(rs: seq<bv8>, c: bool, kind: RegionKind, index: nat, length: bv32, mirror: bv32)
      requires Valid() && |rs| == 32 && index < 8
      requires mirror == 0xFF_C000 || mirror == 0xFE_0000 || mirror == 0xFF_0000
      modifies this`starts, this`ends, startMirrors, endMirrors
      ensures State() == ApplySteps(old(State()), When(c, [Store(kind, SlotRegion(rs, index, length, mirror, 0))]))
    {
      if c {
        StoreSlot(rs, kind, index, length, mirror);
      }
    }

    /** Case 2 of the `switch`: the upper ROM on 5358 boards, the 5704 bank latch, and
        the second 315-5797 window except on YM2413 boards (the `break`). */
    method MapSlot2(rs: seq<bv8>)
      requires Valid() && |rs| == 32
      modifies this`mappings, this`starts, this`ends, startMirrors, endMirrors
      ensures State() == ApplySteps(old(State()), Slot2Steps(hw, rs))
    {
      ghost var s0 := State();
      InstallRomWhen(hw.pcb == Pcb5358Small, SlotRegion(rs, 2, 0x2_0000, 0xFE_0000, 0), 0x2_0000, false);
      ghost var s1 := State();
      ghost var a := When(hw.pcb == Pcb5358Small, RomSteps(hw, SlotRegion(rs, 2, 0x2_0000, 0xFE_0000, 0), 0x2_0000, false));
      InstallRomWhen(hw.pcb == Pcb5358, SlotRegion(rs, 2, 0x2_0000, 0xFE_0000, 0), 0x4_0000, false);
      ghost var s2 := State();
      ghost var b := When(hw.pcb == Pcb5358, RomSteps(hw, SlotRegion(rs, 2, 0x2_0000, 0xFE_0000, 0), 0x4_0000, false));
      Then(s0, a, s1, b, s2);
      StoreSlotWhen(rs, BankBoard(hw.pcb), Bank5704, 2, 0x1_0000, 0xFF_0000);
      ghost var s3 := State();
      ghost var c := When(BankBoard(hw.pcb), [Store(Bank5704, SlotRegion(rs, 2, 0x1_0000, 0xFF_0000, 0))]);
      Then(s0, a + b, s2, c, s3);
      StoreSlotWhen(rs, !hw.ym2413 && hw.pcb == Pcb5797, Math2, 2, 0x1_0000, 0xFF_0000);
      ghost var d := When(!hw.ym2413 && hw.pcb == Pcb5797, [Store(Math2, SlotRegion(rs, 2, 0x1_0000, 0xFF_0000, 0))]);
      Then(s0, a + b + c, s3, d, State());
    }

    /** Case 1 of the `switch`: the second ROM of each board with its mirrors, the
        YM2413 ports and the first 315-5797 window. */
    method MapSlot1(rs: seq<bv8>)
      requires Valid() && |rs| == 32
      modifies this`mappings, this`starts, this`ends, startMirrors, endMirrors
      ensures State() == ApplySteps(old(State()), Slot1Steps(hw, rs))
    {
      ghost var s0 := State();
      InstallRomWhen(hw.pcb == Pcb5358Small, SlotRegion(rs, 1, 0x2_0000, 0xFE_0000, 0), 0x1_0000, true);
      ghost var s1 := State();
      ghost var a := When(hw.pcb == Pcb5358Small, RomSteps(hw, SlotRegion(rs, 1, 0x2_0000, 0xFE_0000, 0), 0x1_0000, true));
      InstallRomWhen(hw.pcb == Pcb5358, SlotRegion(rs, 1, 0x2_0000, 0xFE_0000, 0), 0x2_0000, true);
      ghost var s2 := State();
      ghost var b := When(hw.pcb == Pcb5358, RomSteps(hw, SlotRegion(rs, 1, 0x2_0000, 0xFE_0000, 0), 0x2_0000, true));
      Then(s0, a, s1, b, s2);
      InstallRomWhen(BankBoard(hw.pcb), SlotRegion(rs, 1, 0x4_0000, 0xFC_0000, 0), 0x4_0000, true);
      ghost var s3 := State();
      ghost var c := When(BankBoard(hw.pcb), RomSteps(hw, SlotRegion(rs, 1, 0x4_0000, 0xFC_0000, 0), 0x4_0000, true));
      Then(s0, a + b, s2, c, s3);
      StoreSlotWhen(rs, hw.ym2413, KoreanSound, 1, 0x1_0000, 0xFF_0000);
      ghost var s4 := State();
      ghost var d := When(hw.ym2413, [Store(KoreanSound, SlotRegion(rs, 1, 0x1_0000, 0xFF_0000, 0))]);
      Then(s0, a + b + c, s3, d, s4);
      StoreSlotWhen(rs, hw.pcb == Pcb5797, Math1, 1, 0x4000, 0xFF_C000);
      ghost var e := When(hw.pcb == Pcb5797, [Store(Math1, SlotRegion(rs, 1, 0x4000, 0xFF_C000, 0))]);
      Then(s0, a + b + c + d, s4, e, State());
    }

    /** Case 0 of the `switch`: the first ROM with its mirrors, sized by the board. */
    method MapSlot0(rs: seq<bv8>)
      requires Valid() && |rs| == 32
      modifies this`mappings
      ensures State() == ApplySteps(old(State()), Slot0Steps(hw, rs))
    {
      ghost var s0 := State();
      InstallRomWhen(hw.pcb == Pcb5358 || hw.pcb == Pcb5358Small, SlotRegion(rs, 0, 0x2_0000, 0xFE_0000, 0), 0, true);
      ghost var s1 := State();
      ghost var a := When(hw.pcb == Pcb5358 || hw.pcb == Pcb5358Small, RomSteps(hw, SlotRegion(rs, 0, 0x2_0000, 0xFE_0000, 0), 0, true));
      InstallRomWhen(BankBoard(hw.pcb), SlotRegion(rs, 0, 0x4_0000, 0xFC_0000, 0), 0, true);
      ghost var s2 := State();
      ghost var b := When(BankBoard(hw.pcb), RomSteps(hw, SlotRegion(rs, 0, 0x4_0000, 0xFC_0000, 0), 0, true));
      Then(s0, a, s1, b, s2);
      InstallRomWhen(hw.ym2413, SlotRegion(rs, 0, 0x4_0000, 0xFC_0000, 0), 0, true);
      ghost var s3 := State();
      ghost var c := When(hw.ym2413, RomSteps(hw, SlotRegion(rs, 0, 0x4_0000, 0xFC_0000, 0), 0, true));
      Then(s0, a + b, s2, c, s3);
      InstallRomWhen(hw.pcb == Pcb5797, SlotRegion(rs, 0, 0x8_0000, 0xF8_0000, 0), 0, true);
      ghost var d := When(hw.pcb == Pcb5797, RomSteps(hw, SlotRegion(rs, 0, 0x8_0000, 0xF8_0000, 0), 0, true));
      Then(s0, a + b + c, s3, d, State());
    }

    /** Case 3 of the `switch`: the work RAM. */
    method MapSlot3(rs: seq<bv8>)
      requires Valid() && |rs| == 32
      modifies this`mappings
      ensures State() == ApplySteps(old(State()), Slot3Steps(hw, rs))
    {
      ghost var s0 := State();
      if hw.pcb == Pcb5704Ps2 {
        var r := SlotRegion(rs, 3, 0x4_0000, 0xFFFC_0000, 0);
        MapMemory(WorkRam, r, Ram);
        ApplyOne(s0, Install(WorkRam, r, Ram));
      } else {
        var r := SlotRegion(rs, 3, 0x4000, 0xFFFF_C000, 0);
        MapMemory(WorkRam, r, Ram);
        MapMirrors(WorkRam, r.start, r.end, r.mirror, Ram);
        ApplyPair(s0, Install(WorkRam, r, Ram), InstallMirrors(WorkRam, r, Ram));
      }
    }

    /** A RAM window and its mirrors (cases 6 and 4 of the `switch`). */
    method MapRam(buffer: Buffer, r: Region)
      requires Valid()
      modifies this`mappings
      ensures State() == ApplySteps(old(State()), [Install(buffer, r, Ram), InstallMirrors(buffer, r, Ram)])
    {
      ghost var s0 := State();
      MapMemory(buffer, r, Ram);
      MapMirrors(buffer, r.start, r.end, r.mirror, Ram);
      ApplyPair(s0, Install(buffer, r, Ram), InstallMirrors(buffer, r, Ram));
    }

    /** Case 5 of the `switch`: the text RAM with its mirrors, then the tile RAM
        read-only, whose range the tile region keeps. */
    method MapSlot5(rs: seq<bv8>)
      requires Valid() && |rs| == 32
      modifies this`mappings, this`starts, this`ends, startMirrors, endMirrors
      ensures State() == ApplySteps(old(State()), SlotSteps(hw, rs, 5))
    {
      ghost var s0 := State();
      var text := SlotRegion(rs, 5, 0x1000, 0xFE_F000, 0x1_0000);
      MapMemory(TextRam, text, Ram);
      MapMirrors(TextRam, text.start, text.end, text.mirror, Ram);
      var tile := SlotRegion(rs, 5, 0x1_0000, 0xFE_0000, 0);
      MapMemory(TileRam, tile, Read);
      StoreMaskClear(rs[0x1A], rs[0x1B], 0x1_0000, 0xFE_0000, 0);
      FitsInTable(tile.mirror);
      StoreRegion(Tiles, tile);
      ApplyQuad(s0, Install(TextRam, text, Ram), InstallMirrors(TextRam, text, Ram), Install(TileRam, tile, Read), Store(Tiles, tile));
    }

    /** One pass of update_mapping's loop: the `switch (index)`. */
    method MapSlot(rs: seq<bv8>, index: nat)
      requires Valid() && |rs| == 32 && index < 8
      modifies this`mappings, this`starts, this`ends, startMirrors, endMirrors
      ensures State() == ApplySteps(old(State()), SlotSteps(hw, rs, index))
    {
      if index == 7 {
        StoreSlot(rs, Io, 7, 0x4000, 0xFF_C000);
      } else if index == 6 {
        MapRam(PaletteRam, SlotRegion(rs, 6, 0x1000, 0xFF_F000, 0));
      } else if index == 5 {
        MapSlot5(rs);
      } else if index == 4 {
        MapRam(SpriteRam, SlotRegion(rs, 4, 0x800, 0xFF_F800, 0));
      } else if index == 3 {
        MapSlot3(rs);
      } else if index == 2 {
        MapSlot2(rs);
      } else if index == 1 {
        MapSlot1(rs);
      } else {
        MapSlot0(rs);
      }
    }

    /** The mirror clearing loop of update_mapping: entry i of all twelve tables, the
        six regions in the source's order (io, tile, bank, korean sound, math1,
        math2), which is KindIndex order. */
    method ClearMirrors()
      requires Valid()
      modifies startMirrors, endMirrors
      ensures forall k, l :: 0 <= k < 6 && 0 <= l < 32 ==> startMirrors[k][l] == 0 && endMirrors[k][l] == 0
    {
      for i := 0 to 32
        invariant forall k, l :: 0 <= k < 6 && 0 <= l < i ==> startMirrors[k][l] == 0 && endMirrors[k][l] == 0
      {
        for k := 0 to 6
          invariant forall j, l :: 0 <= j < 6 && 0 <= l < i ==> startMirrors[j][l] == 0 && endMirrors[j][l] == 0
          invariant forall j :: 0 <= j < k ==> startMirrors[j][i] == 0 && endMirrors[j][i] == 0
        {
          startMirrors[k][i], endMirrors[k][i] := 0, 0;
        }
      }
    }

    /** The clearing of update_mapping: each soft region's primary range, in the
        source's order, then all twelve mirror tables. */
    method ClearRegions()
      requires Valid()
      modifies this`starts, this`ends, startMirrors, endMirrors
      ensures State() == Cleared(mappings)
    {
      starts, ends := starts[1 := 0], ends[1 := 0];
      starts, ends := starts[0 := 0], ends[0 := 0];
      starts, ends := starts[2 := 0], ends[2 := 0];
      starts, ends := starts[3 := 0], ends[3 := 0];
      starts, ends := starts[4 := 0], ends[4 := 0];
      starts, ends := starts[5 := 0], ends[5 := 0];
      ClearMirrors();
      ClearedTables(State());
    }

    /** update_mapping: the catch-all handler over the whole space, every soft region
        and mirror entry cleared, then the `switch` for slots 7 down to 0 on a System
        16B. */
    method UpdateMapping()
      requires Valid()
      modifies this`mappings, this`starts, this`ends, startMirrors, endMirrors
      ensures State() == Rebuild(hw, old(regs[..]), old(mappings))
    {
      var rs := regs[..];
      mappings := mappings + [HandlerRecord];
      ClearRegions();
      MapSlots(rs);
    }

    /** The loop of update_mapping: `index` takes 7, 6, ... 0 in the body. */
    method MapSlots(rs: seq<bv8>)
      requires Valid() && |rs| == 32
      modifies this`mappings, this`starts, this`ends, startMirrors, endMirrors
      ensures State() == ApplySteps(old(State()), StepsFrom(hw, rs, 0))
    {
      ghost var cleared := State();
      for index := 8 downto 0
        invariant State() == ApplySteps(cleared, StepsFrom(hw, rs, index))
      {
        MapSlotOn16B(rs, index, cleared);
      }
    }

    /** One pass of update_mapping's loop, taken only on a System 16B: the state
        reached from `cleared` by slots 7 down to `index` + 1 goes on to slot `index`. */
    method MapSlotOn16B(rs: seq<bv8>, index: nat, ghost cleared: Snapshot)
      requires Valid() && |rs| == 32 && index < 8 && Shaped(cleared)
      requires State() == ApplySteps(cleared, StepsFrom(hw, rs, index + 1))
      modifies this`mappings, this`starts, this`ends, startMirrors, endMirrors
      ensures State() == ApplySteps(cleared, StepsFrom(hw, rs, index))
    {
      ghost var before := State();
      if hw.system16B {
        MapSlot(rs, index);
      }
      Then(cleared, StepsFrom(hw, rs, index + 1), before, When(hw.system16B, SlotSteps(hw, rs, index)), State());
    }

    // -------------------------------------------------------------------------
    // The register file

    /** open_bus_read: a re-entered read answers 0xFFFF; otherwise re-entry is flagged
        while the ROM bytes at the program counter are fetched, and cleared after. */
    method OpenBusRead(bus: Bus) returns (w: bv16)
      modifies this`openBusRecurse
      ensures w == OpenBus(old(openBusRecurse), bus) && openBusRecurse == old(openBusRecurse)
    {
      if openBusRecurse {
        return 0xFFFF;
      }
      openBusRecurse := true;
      w := OpenBusWord(bus);
      openBusRecurse := false;
    }

    /** chip_read; `wordAccess` is a data width of 16, which every handler passes. */
    method ChipRead(offset: bv32, wordAccess: bool, bus: Bus) returns (v: bv8)
      requires Valid()
      modifies this`openBusRecurse
      ensures v == ChipReadValue(regs[..], offset, wordAccess, old(openBusRecurse), bus)
      ensures openBusRecurse == old(openBusRecurse)
    {
      var i := RegisterIndex(offset);
      if i == 0 || i == 1 {
        v := regs[i];
      } else if i == 2 {
        v := if regs[2] & 3 == 3 then 0x00 else 0x0F;
      } else if i == 3 {
        v := 0xFF;
      } else if wordAccess {
        var w := OpenBusRead(bus);
        v := LowByte(w);
      } else {
        v := 0xFF;
      }
    }

    /** The calls of a register 4 write: the loop over interrupt numbers 0 .. 7, the
        target line asserted and every other cleared. */
    method DriveIrqLines(v: bv8)
      requires v & 7 != 7
      modifies this`effects
      ensures effects == old(effects) + IrqEffects(v)
    {
      ghost var e0 := effects;
      for irq := 0 to 8
        invariant effects == e0 + IrqEffects(v)[..irq]
      {
        assert IrqEffects(v)[..irq + 1] == IrqEffects(v)[..irq] + [IrqLine(irq, irq == IrqTarget(v))];
        effects := effects + [IrqLine(irq, irq == IrqTarget(v))];
      }
      assert IrqEffects(v)[..8] == IrqEffects(v);
    }

    /** The state chip_write(i, d) leaves: the register file of ChipWriteRegs, the calls
        of ChipWriteEffects, the sound latch set by a register 3 write, and the map
        rebuilt from the new registers by a descriptor write that changes the value;
        the map as it was otherwise. */
    twostate predicate ChipWrote(i: nat, d: bv8)
      requires Valid() && i < 32
      reads this, regs, board, board.tileBanks, startMirrors, endMirrors
    {
      regs[..] == ChipWriteRegs(old(regs[..]), i, d)
      && effects == old(effects) + ChipWriteEffects(hw.fd1094, hw.ym2413, old(regs[..]), i, d)
      && board.State() == old(board.State()).(soundLatch := if i == 3 then d else old(board.soundLatch))
      && State() == (if Remaps(old(regs[..]), i, d) then Rebuild(hw, regs[..], old(mappings)) else old(State()))
    }

    /** Register 2 of chip_write: the forced reset when the mode bits enter 3, with
        the FD1094 decryption set up again first on encrypted boards. */
    method ForcedReset(oldval: bv8, d: bv8)
      modifies this`effects
      ensures effects == old(effects) + ResetEffects(hw.fd1094, oldval, d)
    {
      if (oldval ^ d) & 3 != 0 {
        if d & 3 == 3 {
          if hw.fd1094 {
            effects := effects + [Fd1094Init];
          }
          effects := effects + [CpuReset];
        }
      }
    }

    /** Register 3 of chip_write: the sound latch, and the sound CPU's interrupt except
        on YM2413 boards. */
    method SoundCommand(d: bv8)
      modifies this`effects, board`soundLatch
      ensures board.soundLatch == d
      ensures effects == old(effects) + (if hw.ym2413 then [] else [SoundIrq])
    {
      board.soundLatch := d;
      if !hw.ym2413 {
        effects := effects + [SoundIrq];
      }
    }

    /** Register 4 of chip_write: the interrupt lines, unless the low bits are 7. */
    method InterruptLines(d: bv8)
      modifies this`effects
      ensures effects == old(effects) + IrqEffects(d)
    {
      if d & 7 != 7 {
        DriveIrqLines(d);
      }
    }

    /** Register 5 of chip_write, the pseudo-DMA. Command 1 computes the write address
        latched in registers 0x0A .. 0x0C and command 2 the read address latched in
        registers 0x07 .. 0x09; neither accesses memory, the address only goes to the
        log. Command 2 reads 0xFFFF into registers 0 and 1. */
    method DmaCommand(d: bv8) returns (addr: Option<bv32>)
      requires Valid()
      modifies regs
      ensures regs[..] == if d == 2 then old(regs[..])[0 := 0xFF][1 := 0xFF] else old(regs[..])
      ensures d == 1 ==> addr == Some(DmaAddress(regs[0x0A], regs[0x0B], regs[0x0C]))
      ensures d == 2 ==> addr == Some(DmaAddress(regs[0x07], regs[0x08], regs[0x09]))
      ensures d != 1 && d != 2 ==> addr == None
    {
      addr := None;
      if d == 1 {
        addr := Some(DmaAddress(regs[0x0A], regs[0x0B], regs[0x0C]));
      } else if d == 2 {
        addr := Some(DmaAddress(regs[0x07], regs[0x08], regs[0x09]));
        regs[0] := 0xFF;
        regs[1] := 0xFF;
      }
    }

    /** chip_write: the register stored, then the action of that register. */
    method ChipWrite(offset: bv32, d: bv8)
      requires Valid() && Apart()
      modifies regs, this`effects, board`soundLatch, this`mappings, this`starts, this`ends, startMirrors, endMirrors
      ensures ChipWrote(RegisterIndex(offset), d)
    {
      var i := RegisterIndex(offset);
      ghost var r0, s0 := regs[..], State();
      var oldval := regs[i];
      regs[i] := d;
      assert regs[..] == r0[i := d];
      if i == 2 {
        ForcedReset(oldval, d);
      } else if i == 3 {
        SoundCommand(d);
      } else if i == 4 {
        InterruptLines(d);
      } else if i == 5 {
        var _ := DmaCommand(d);
      } else if i >= 0x10 {
        if oldval != d {
          UpdateMapping();
        }
      }
      assert !Remaps(r0, i, d) ==> State() == s0;
    }

    // -------------------------------------------------------------------------
    // The devices behind the soft regions

    /** sega_315_5195_io_read: the port, or the low byte of the open bus. */
    method IoReadPort(offset: bv32, bus: Bus) returns (v: bv8)
      requires BusValid(bus)
      modifies this`openBusRecurse
      ensures v as bv16 == IoReply(false, offset, hw.ym2413, bus, old(openBusRecurse))
      ensures openBusRecurse == old(openBusRecurse)
    {
      var port := IoRead(offset, hw.ym2413, bus);
      if port.Some? {
        v := port.value;
      } else {
        var w := OpenBusRead(bus);
        v := LowByte(w);
      }
    }

    /** math1_5797_read: the chip's word, or the open bus. */
    method Math1ReadPort(offset: bv32, bus: Bus) returns (w: bv16)
      modifies this`openBusRecurse
      ensures w == Math1Reply(offset, bus, old(openBusRecurse))
      ensures openBusRecurse == old(openBusRecurse)
    {
      var chipWord := Math1Read(offset, bus);
      if chipWord.Some? {
        w := chipWord.value;
      } else {
        w := OpenBusRead(bus);
      }
    }

    /** korean_sound_write: offsets 0 and 1 are the YM2413's two ports. */
    method KoreanSoundWrite(offset: bv32, d: bv8)
      modifies this`effects
      ensures effects == old(effects) + ActEffects(Ym2413(offset, d))
    {
      if offset == 0 {
        effects := effects + [Ym2413Write(0, d)];
      } else if offset == 1 {
        effects := effects + [Ym2413Write(1, d)];
      }
    }

    /** math1_5797_write: the multiply chip, compare/timer chip 0, or the tile-bank
        latch. */
    method Math1Write(offset: bv32, w: bv16)
      requires Valid()
      modifies this`effects, board, board.tileBanks
      ensures board.State() == ActOnBoard(old(board.State()), MathWrite(offset, w))
      ensures effects == old(effects) + ActEffects(MathWrite(offset, w))
    {
      var o := offset & 0x1FFF;
      var port := Math1WritePort(offset);
      MathBoardOutcome(board.State(), offset, w);
      MathCallOutcome(offset, w);
      if port == MultiplyPort {
        effects := effects + [MultiplyWrite(o, w)];
      } else if port == TimerPort {
        effects := effects + [CompareTimerWrite(0, o, w)];
      } else if port == BankPort {
        board.LatchBank(BankIndex(o), BankValue(w));
      }
    }

    // -------------------------------------------------------------------------
    // The bus handlers

    /** The range tests of a handler in its order: the primary ranges of
        `primaryKinds`, then for each mirror index the entries of `mirrorKinds`. The
        first that passes is returned; None when none does. With `primaryGuard` the
        YM2413 mirror test is enabled by the primary start, as write_byte does. */
    method FindRoute(primaryKinds: seq<RegionKind>, mirrorKinds: seq<RegionKind>, primaryGuard: bool, a: bv32)
      returns (hit: Option<Probe>)
      requires Valid()
      ensures hit == Route(Primaries(State(), primaryKinds), LoopRows(State(), mirrorKinds, primaryGuard), a)
      ensures !primaryGuard ==> hit == HandlerRoute(State(), primaryKinds, mirrorKinds, a)
    {
      if !primaryGuard {
        LoopRowsOwnGuard(State(), mirrorKinds);
      }
      hit := FirstPrimary(primaryKinds, a);
      if hit.None? {
        hit := FirstMirror(mirrorKinds, primaryGuard, a, State());
      }
    }

    /** The primary tests of a handler, in its order. */
    method FirstPrimary(primaryKinds: seq<RegionKind>, a: bv32) returns (hit: Option<Probe>)
      requires Valid()
      ensures hit == FirstHit(Primaries(State(), primaryKinds), a)
    {
      ghost var prims := Primaries(State(), primaryKinds);
      for j := 0 to |primaryKinds|
        invariant forall q :: 0 <= q < j ==> !Hits(prims[q], a)
      {
        var k := KindIndex(primaryKinds[j]);
        var p := Probe(primaryKinds[j], Span(starts[k], ends[k]), starts[k] > 0);
        assert p == prims[j];
        if Hits(p, a) {
          FirstHitAt(prims, a, j);
          return Some(p);
        }
      }
      return None;
    }

    /** The mirror loop of a handler: the indices 0 .. 31 in turn. */
    method FirstMirror(mirrorKinds: seq<RegionKind>, primaryGuard: bool, a: bv32, ghost s: Snapshot)
      returns (hit: Option<Probe>)
      requires Valid() && s == State()
      ensures hit == FirstRowHit(LoopRows(s, mirrorKinds, primaryGuard), a)
    {
      ghost var rows := LoopRows(s, mirrorKinds, primaryGuard);
      for i := 0 to 32
        invariant FirstRowHit(rows, a) == FirstRowHit(rows[i..], a)
      {
        hit := MirrorIndex(mirrorKinds, primaryGuard, i, a, s);
        FirstRowHitStep(rows, a, i);
        if hit.Some? {
          return;
        }
      }
      assert rows[32..] == [];
      return None;
    }

    /** The tests of mirror index `i`, in the handler's order. */
    method MirrorIndex(mirrorKinds: seq<RegionKind>, primaryGuard: bool, i: nat, a: bv32, ghost s: Snapshot)
      returns (hit: Option<Probe>)
      requires Valid() && i < 32 && s == State()
      ensures hit == FirstHit(LoopRow(s, mirrorKinds, i, primaryGuard), a)
    {
      ghost var row := LoopRow(s, mirrorKinds, i, primaryGuard);
      for m := 0 to |mirrorKinds|
        invariant forall m' :: 0 <= m' < m ==> !Hits(row[m'], a)
      {
        var k := KindIndex(mirrorKinds[m]);
        var guard := if primaryGuard && mirrorKinds[m] == KoreanSound then starts[k] else startMirrors[k][i];
        var p := Probe(mirrorKinds[m], Span(startMirrors[k][i], endMirrors[k][i]), guard > 0);
        assert p == row[m];
        if Hits(p, a) {
          FirstHitAt(row, a, m);
          return Some(p);
        }
      }
      return None;
    }

    /** The word a read handler answers for its route. */
    method ReadHit(hit: Option<Probe>, a: bv32, bus: Bus) returns (w: bv16)
      requires Valid() && BusValid(bus)
      requires hit.Some? ==> hit.value.kind in ReadWordKinds
      modifies this`openBusRecurse
      ensures w == ReadReply(hit, a, regs[..], customIo, hw.ym2413, bus, old(openBusRecurse))
      ensures openBusRecurse == old(openBusRecurse)
    {
      if hit.None? {
        var b := ChipRead(a >> 1, true, bus);
        return b as bv16;
      }
      var p := hit.value;
      var o := WindowOffset(a, p.span.start);
      if p.kind == Io {
        if customIo {
          w := bus.customIo(o);
        } else {
          var b := IoReadPort(o, bus);
          w := b as bv16;
        }
      } else if p.kind == Math1 {
        w := Math1ReadPort(o, bus);
      } else {
        w := bus.compareTimer(1, o);
      }
    }

    /** sega_315_5195_read_byte: the I/O region, else chip_read. */
    method ReadByte(a: bv32, bus: Bus) returns (v: bv8)
      requires Valid() && BusValid(bus)
      modifies this`openBusRecurse
      ensures v == ReadByteReply(ReadByteRoute(old(State()), a), a, regs[..], customIo, hw.ym2413, bus, old(openBusRecurse))
      ensures openBusRecurse == old(openBusRecurse)
    {
      var hit := FindRoute(ReadByteKinds, ReadByteKinds, false, a);
      var w := ReadHit(hit, a, bus);
      v := LowByte(w);
    }

    /** sega_315_5195_read_word: the I/O region and both 315-5797 windows, else
        chip_read. */
    method ReadWord(a: bv32, bus: Bus) returns (w: bv16)
      requires Valid() && BusValid(bus)
      modifies this`openBusRecurse
      ensures w == ReadReply(ReadWordRoute(old(State()), a), a, regs[..], customIo, hw.ym2413, bus, old(openBusRecurse))
      ensures openBusRecurse == old(openBusRecurse)
    {
      var hit := FindRoute(ReadWordKinds, ReadWordKinds, false, a);
      w := ReadHit(hit, a, bus);
    }

    /** The state a write action leaves: a register write as chip_write leaves it,
        any other action the board of ActOnBoard and the calls of ActEffects, with
        the registers and the map untouched. */
    twostate predicate Acted(act: Action)
      requires Valid()
      reads this, regs, board, board.tileBanks, startMirrors, endMirrors
    {
      if act.RegisterWrite? then ChipWrote(RegisterIndex(act.offset), act.byte)
      else
        board.State() == ActOnBoard(old(board.State()), act)
        && effects == old(effects) + ActEffects(act)
        && regs[..] == old(regs[..]) && State() == old(State())
    }

    /** The device call a write handler makes once its route is known. */
    method Perform(act: Action)
      requires Valid() && Apart()
      modifies regs, this`effects, board, board.tileBanks, this`mappings, this`starts, this`ends, startMirrors, endMirrors
      ensures Acted(act)
    {
      match act
      case Emit(e) =>
        effects := effects + [e];
      case Latch(o, d) =>
        board.IoWrite(o, d);
      case Bank(o, d) =>
        board.Bank5704Write(o, d);
      case Ym2413(o, d) =>
        KoreanSoundWrite(o, d);
      case MathWrite(o, w) =>
        Math1Write(o, w);
      case RegisterWrite(o, d) =>
        ChipWrite(o, d);
    }

    /** sega_315_5195_write_byte, with its YM2413 mirror test as written. */
    method WriteByte(a: bv32, d: bv8)
      requires Valid() && Apart()
      modifies regs, this`effects, board, board.tileBanks, this`mappings, this`starts, this`ends, startMirrors, endMirrors
      ensures Acted(WriteByteAction(WriteByteRouteAsWritten(old(State()), a), a, d, customIoWrite))
    {
      var hit := FindRoute(WriteBytePrimaryKinds, WriteByteMirrorKinds, true, a);
      Perform(WriteByteAction(hit, a, d, customIoWrite));
    }

    /** sega_315_5195_write_word. */
    method WriteWord(a: bv32, d: bv16)
      requires Valid() && Apart()
      modifies regs, this`effects, board, board.tileBanks, this`mappings, this`starts, this`ends, startMirrors, endMirrors
      ensures Acted(WriteWordAction(WriteWordRoute(old(State()), a), a, d, customIoWrite))
    {
      var hit := FindRoute(WriteWordPrimaryKinds, WriteWordMirrorKinds, false, a);
      Perform(WriteWordAction(hit, a, d, customIoWrite));
    }

    // -------------------------------------------------------------------------
    // Life cycle

    /** sega_315_5195_reset: a mapper in use rebuilds its map and clears the open-bus
        flag; one not in use is left as it is. */
    method Reset()
      requires Valid() && Apart()
      modifies this`mappings, this`starts, this`ends, startMirrors, endMirrors, this`openBusRecurse
      ensures inUser ==> State() == Rebuild(hw, regs[..], old(mappings)) && !openBusRecurse
      ensures !inUser ==> State() == old(State()) && openBusRecurse == old(openBusRecurse)
    {
      if inUser {
        // update_mapping does not read the flag, so clearing it first is the same.
        openBusRecurse := false;
        UpdateMapping();
      }
    }

    /** sega_315_5195_configure_explicit: the sixteen descriptor bytes of `mapData`
        copied into registers 0x10 .. 0x1F, then the map rebuilt. */
    method ConfigureExplicit(mapData: seq<bv8>)
      requires Valid() && Apart() && |mapData| >= 16
      modifies regs, this`mappings, this`starts, this`ends, startMirrors, endMirrors
      ensures regs[..] == old(regs[..])[..16] + mapData[..16]
      ensures State() == Rebuild(hw, regs[..], old(mappings))
    {
      CopyDescriptors(mapData);
      UpdateMapping();
    }

    /** The memcpy of configure_explicit. */
    method CopyDescriptors(mapData: seq<bv8>)
      requires Valid() && |mapData| >= 16
      modifies regs
      ensures regs[..] == old(regs[..])[..16] + mapData[..16]
    {
      for j := 0 to 16
        invariant forall l :: 0 <= l < 16 ==> regs[l] == old(regs[l])
        invariant forall l :: 0 <= l < j ==> regs[16 + l] == mapData[l]
      {
        regs[16 + j] := mapData[j];
      }
      assert regs[..] == old(regs[..])[..16] + mapData[..16];
    }

    /** The memset of the register file. */
    method ClearRegisters()
      requires Valid()
      modifies regs
      ensures regs[..] == seq(32, i => 0)
    {
      for i := 0 to 32
        invariant forall l :: 0 <= l < i ==> regs[l] == 0
      {
        regs[i] := 0;
      }
    }

    /** sega_315_5195_init: the chip zeroed and the mapper in use. */
    method Init()
      requires Valid() && Apart()
      modifies regs, this`starts, this`ends, startMirrors, endMirrors, this`inUser
      ensures regs[..] == seq(32, i => 0) && State() == Cleared(mappings) && inUser
    {
      inUser := true;
      ClearRegisters();
      ClearRegions();
    }

    /** sega_315_5195_exit: the chip zeroed, the flags cleared and the custom I/O
        handlers removed. */
    method Exit()
      requires Valid() && Apart()
      modifies regs, this`starts, this`ends, startMirrors, endMirrors
      modifies this`openBusRecurse, this`inUser, this`customIo, this`customIoWrite
      ensures regs[..] == seq(32, i => 0) && State() == Cleared(mappings)
      ensures !openBusRecurse && !inUser && !customIo && !customIoWrite
    {
      // The flags are independent of the chip state, so they are cleared first.
      openBusRecurse, inUser := false, false;
      customIo, customIoWrite := false, false;
      ClearRegisters();
      ClearRegions();
    }
  }

  /** The loops of map_mirrors and store_mirrors compute the offset of their counters. */
  lemma RoundOffset(m: bv32, low: seq<bv32>, high: seq<bv32>, hc: nat, lc: nat, hbase: bv32, lbase: bv32)
    ensures (low == LowBits(m) && high == HighBits(m) && hbase == Select(high, hc, |high|)
      && lbase == SelectFrom(hbase, low, lc, |low|)) ==> lbase == Offset(m, hc, lc)
  {
  }

  /** The loop bounds are the counts, so the rounds run are Rounds(m). */
  lemma RoundsOfLoops(m: bv32, low: seq<bv32>, high: seq<bv32>)
    ensures m != 0 && low == SetBits(m, 0, 18) && high == SetBits(m, 18, 32) ==>
      Passes(Pow2(|high|), Pow2(|low|)) == Rounds(m)
  {
  }

  /** Appending the record of one round keeps the log equal to the images so far. */
  lemma MapRound(done: seq<MapRecord>, cur: seq<MapRecord>, buffer: Buffer, mode: MapMode, start: bv32, end: bv32,
                 m: bv32, rounds: seq<Pass>, hc: nat, lc: nat, lbase: bv32)
    ensures (cur == done + Installs(buffer, mode, Images(start, end, m, rounds))
      && lbase == Offset(m, hc, lc)) ==>
      cur + [MapRecord(buffer, Span(Add32(start, lbase), Add32(end, lbase)), mode)]
        == done + Installs(buffer, mode, Images(start, end, m, rounds + [Pass(hc, lc)]))
  {
    ImagesSnoc(start, end, m, rounds, Pass(hc, lc));
    InstallsSnoc(buffer, mode, Images(start, end, m, rounds), Image(start, end, m, hc, lc));
    AppendAssoc(done, Installs(buffer, mode, Images(start, end, m, rounds)),
      [MapRecord(buffer, Image(start, end, m, hc, lc), mode)]);
  }

  lemma NoImages(done: seq<MapRecord>, buffer: Buffer, mode: MapMode, start: bv32, end: bv32, m: bv32)
    ensures done + Installs(buffer, mode, Images(start, end, m, [])) == done
  {
    assert Installs(buffer, mode, Images(start, end, m, [])) == [];
  }

  /** A snapshot whose regions and tables are all zero is the cleared one. */
  lemma ClearedTables(s: Snapshot)
    requires Shaped(s)
    requires forall k :: 0 <= k < 6 ==> s.starts[k] == 0 && s.ends[k] == 0
    requires forall k, l :: 0 <= k < 6 && 0 <= l < 32 ==> s.mirrorStarts[k][l] == 0 && s.mirrorEnds[k][l] == 0
    ensures s == Cleared(s.records)
  {
    var c := Cleared(s.records);
    assert s.starts == c.starts && s.ends == c.ends;
    forall k | 0 <= k < 6
      ensures s.mirrorStarts[k] == c.mirrorStarts[k] && s.mirrorEnds[k] == c.mirrorEnds[k]
    {
      assert forall l :: 0 <= l < 32 ==> s.mirrorStarts[k][l] == c.mirrorStarts[k][l];
      assert forall l :: 0 <= l < 32 ==> s.mirrorEnds[k][l] == c.mirrorEnds[k][l];
    }
  }
}
