/** The small decoders behind the soft regions: the I/O ports, the first 315-5797
    math window, the 5704 tile-bank latch and the YM2413 sound ports. Every device
    outside the mapper is either a value read from `Bus` or an `Effect` event. */
module Devices {
  import opened Options

  /** What the board outside the mapper supplies to a read: the input ports and DIP
      switches, the two ROM bytes at the CPU's program counter, the read functions
      of the multiply chip and the compare/timer chips (by chip number), and the
      custom I/O read handler a driver may install. */
  datatype Bus = Bus(
    inputs: seq<bv8>,
    dips: seq<bv8>,
    romAtPc: bv8,
    romAfterPc: bv8,
    multiply: bv32 -> bv16,
    compareTimer: (nat, bv32) -> bv16,
    customIo: bv32 -> bv16)

  /** The board has at least three input ports and three DIP banks. */
  predicate BusValid(bus: Bus)
  {
    |bus.inputs| >= 3 && |bus.dips| >= 3
  }

  /** A call from the mapper into the rest of the emulator. */
  datatype Effect =
    | CpuReset
    | Fd1094Init
    | SoundIrq
    | IrqLine(line: nat, asserted: bool)
    | Ym2413Write(port: nat, byte: bv8)
    | MultiplyWrite(offset: bv32, word: bv16)
    | CompareTimerWrite(chip: nat, offset: bv32, word: bv16)
    | TileByteWrite(offset: bv32, byte: bv8)
    | TileWordWrite(offset: bv32, word: bv16)
    | CustomIoWrite(offset: bv32, byte: bv8)

  // ---------------------------------------------------------------------------
  // Offsets inside a window

  /** The port group of a window offset: `(offset & 0x1fff) & (0x3000 / 2)`. */
  function Group(offset: bv32): bv32
  {
    (offset & 0x1FFF) & 0x1800
  }

  /** The low two bits of the offset, which pick a port inside a group. */
  function Line(offset: bv32): bv32
  {
    (offset & 0x1FFF) & 3
  }

  /** An input port reads active low: `0xff - input`. */
  function Inverted(v: bv8): bv8
  {
    0xFF - v
  }

  // ---------------------------------------------------------------------------
  // I/O ports (sega_315_5195_io_read / io_write)

  /** The I/O read of a port group and line; None where the source falls through to
      the open-bus read. YM2413 boards have only the first group of four ports. */
  function IoPorts(group: bv32, line: bv32, ym2413: bool, bus: Bus): Option<bv8>
    requires BusValid(bus)
  {
    if ym2413 then
      if group == 0x0800 then
        Some(if line == 1 then Inverted(bus.inputs[1])
             else if line == 2 then bus.dips[0]
             else if line == 3 then bus.dips[1]
             else Inverted(bus.inputs[0]))
      else None
    else if group == 0x0800 then
      Some(if line == 1 then Inverted(bus.inputs[1])
           else if line == 2 then bus.dips[2]
           else if line == 3 then Inverted(bus.inputs[2])
           else Inverted(bus.inputs[0]))
    else if group == 0x1000 then
      Some(if line & 1 == 1 then bus.dips[1] else bus.dips[0])
    else None
  }

  /** sega_315_5195_io_read at a window offset. */
  function IoRead(offset: bv32, ym2413: bool, bus: Bus): Option<bv8>
    requires BusValid(bus)
  {
    IoPorts(Group(offset), Line(offset), ym2413, bus)
  }

  /** The read falls to the open bus exactly outside the port groups: group 0x0800 on
      every board, group 0x1000 too unless the board has a YM2413 ... */
  lemma IoReadOpenBus(offset: bv32, ym2413: bool, bus: Bus)
    requires BusValid(bus)
    ensures IoRead(offset, ym2413, bus).None?
      <==> Group(offset) != 0x0800 && (ym2413 || Group(offset) != 0x1000)
  {
  }

  /** ... and the ports repeat through the window: offsets that agree in bits 0, 1, 11
      and 12 read the same port. */
  lemma IoReadRepeats(o1: bv32, o2: bv32, ym2413: bool, bus: Bus)
    requires BusValid(bus)
    ensures o1 & 0x1803 == o2 & 0x1803 ==> IoRead(o1, ym2413, bus) == IoRead(o2, ym2413, bus)
  {
    GroupBits(o1, o2);
    LineBits(o1, o2);
  }

  lemma GroupBits(o1: bv32, o2: bv32)
    ensures o1 & 0x1803 == o2 & 0x1803 ==> Group(o1) == Group(o2)
  {
  }

  lemma LineBits(o1: bv32, o2: bv32)
    ensures o1 & 0x1803 == o2 & 0x1803 ==> Line(o1) == Line(o2)
  {
  }

  /** sega_315_5195_io_write: a write to group 0 sets the video enable (bit 5) and
      screen flip (bit 6) latches; any other group is ignored. */
  function IoWrite(offset: bv32, d: bv8): (r: Option<(bv8, bv8)>)
    ensures r.Some? <==> Group(offset) == 0
    ensures r.Some? ==> r.value.0 & !0x20 == 0 && r.value.1 & !0x40 == 0
    ensures r.Some? ==> (r.value.0 != 0 <==> d & 0x20 != 0) && (r.value.1 != 0 <==> d & 0x40 != 0)
  {
    if Group(offset) == 0 then Some((d & 0x20, d & 0x40)) else None
  }

  // ---------------------------------------------------------------------------
  // The first 315-5797 window (math1_5797_read / write)

  /** math1_5797_read: group 0 is the multiply chip, group 0x0800 compare/timer chip 0,
      the rest the open bus (None). The chips see the offset masked to 13 bits. */
  function Math1Read(offset: bv32, bus: Bus): (r: Option<bv16>)
    ensures r.None? <==> Group(offset) != 0 && Group(offset) != 0x0800
    ensures Group(offset) == 0 ==> r == Some(bus.multiply(offset & 0x1FFF))
    ensures Group(offset) == 0x0800 ==> r == Some(bus.compareTimer(0, offset & 0x1FFF))
  {
    var o := offset & 0x1FFF;
    if Group(offset) == 0 then Some(bus.multiply(o))
    else if Group(offset) == 0x0800 then Some(bus.compareTimer(0, o))
    else None
  }

  /** The device a write to the math1 window reaches. */
  datatype Math1Port = MultiplyPort | TimerPort | BankPort | NoPort

  /** math1_5797_write's `switch`: group 0 the multiply chip, 0x0800 compare/timer
      chip 0, 0x1000 the tile-bank latch, 0x1800 nothing. */
  function Math1WritePort(offset: bv32): (p: Math1Port)
    ensures p == NoPort <==> Group(offset) == 0x1800
  {
    GroupValues(offset);
    var g := Group(offset);
    if g == 0 then MultiplyPort
    else if g == 0x0800 then TimerPort
    else if g == 0x1000 then BankPort
    else NoPort
  }

  /** A port group is one of the four values. */
  lemma GroupValues(offset: bv32)
    ensures Group(offset) == 0 || Group(offset) == 0x0800 || Group(offset) == 0x1000 || Group(offset) == 0x1800
  {
  }

  // ---------------------------------------------------------------------------
  // Tile banks (bank_5704_write and group 0x1000 of math1_5797_write)

  /** Which of the two tile banks an offset selects: `offset & 1`. */
  function BankIndex(offset: bv32): (i: nat)
    ensures i < 2
    ensures i == 1 <==> offset & 1 == 1
  {
    if offset & 1 == 1 then 1 else 0
  }

  /** The bank number written: the low three bits of the data. */
  function BankValue(d: bv16): (v: int)
    ensures 0 <= v < 8
  {
    (d & 7) as int
  }

  /** Two data words agreeing in their low three bits write the same bank. */
  lemma BankValueLowBits(d1: bv16, d2: bv16)
    ensures d1 & 7 == d2 & 7 ==> BankValue(d1) == BankValue(d2)
  {
  }

  // ---------------------------------------------------------------------------
  // YM2413 (korean_sound_write)

  /** The YM2413 port an offset reaches: 0 (address) or 1 (data); other offsets are
      ignored. The offset is not masked. */
  function KoreanPort(offset: bv32): (p: Option<nat>)
    ensures p.Some? <==> offset == 0 || offset == 1
    ensures p.Some? ==> p.value == offset as nat
  {
    if offset == 0 then Some(0) else if offset == 1 then Some(1) else None
  }
}
