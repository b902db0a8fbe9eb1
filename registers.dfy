/** The register file of the 315-5195 as the CPU sees it: the read decode of
    `chip_read`, and the pure parts of `chip_write` (the reset condition of register 2,
    the interrupt encoder of register 4 and the address latches of the stubbed
    pseudo-DMA of register 5). */
module Registers {
  import opened Options
  import opened Devices

  /** The register an access reaches: `offset & 0x1f`. */
  function RegisterIndex(offset: bv32): (i: nat)
    ensures i < 32
  {
    (offset & 0x1F) as int
  }

  // ---------------------------------------------------------------------------
  // chip_read

  /** The value of a register read, or None where chip_read goes on to the open bus
      (word reads) or returns 0xFF (byte reads). Registers 0 and 1 read back as
      written, register 2 reports 0x00 while its mode bits are 3 and 0x0F otherwise,
      and register 3 (the sound command) reads 0xFF. */
  function RegisterRead(regs: seq<bv8>, index: nat): (r: Option<bv8>)
    requires |regs| == 32 && index < 32
    ensures r.None? <==> index >= 4
  {
    if index == 0 || index == 1 then Some(regs[index])
    else if index == 2 then Some(if regs[2] & 3 == 3 then 0x00 else 0x0F)
    else if index == 3 then Some(0xFF)
    else None
  }

  /** The word the open-bus read returns: the two ROM bytes at the program counter,
      the byte at PC + 1 in the high half. */
  function OpenBusWord(bus: Bus): bv16
  {
    ((bus.romAfterPc as bv16) << 8) | (bus.romAtPc as bv16)
  }

  /** The low byte of a word (the UINT16 to UINT8 narrowing). */
  function LowByte(w: bv16): bv8
  {
    (w & 0xFF) as bv8
  }

  /** chip_read returns a byte, so the open-bus word it falls back on keeps only the
      ROM byte at the program counter. */
  lemma OpenBusLowByte(bus: Bus)
    ensures LowByte(OpenBusWord(bus)) == bus.romAtPc
  {
  }

  /** open_bus_read: 0xFFFF when the read is re-entered (`busy`), the ROM word at the
      program counter otherwise. */
  function OpenBus(busy: bool, bus: Bus): (w: bv16)
    ensures !busy ==> LowByte(w) == bus.romAtPc
  {
    OpenBusLowByte(bus);
    if busy then 0xFFFF else OpenBusWord(bus)
  }

  /** chip_read: the register value, else for a word access the low byte of the open
      bus, else 0xFF. */
  function ChipReadValue(regs: seq<bv8>, offset: bv32, wordAccess: bool, busy: bool, bus: Bus): (v: bv8)
    requires |regs| == 32
    ensures RegisterIndex(offset) < 4 ==> Some(v) == RegisterRead(regs, RegisterIndex(offset))
    ensures RegisterIndex(offset) >= 4 && !wordAccess ==> v == 0xFF
    ensures RegisterIndex(offset) >= 4 && wordAccess && !busy ==> v == bus.romAtPc
  {
    var r := RegisterRead(regs, RegisterIndex(offset));
    if r.Some? then r.value else if wordAccess then LowByte(OpenBus(busy, bus)) else 0xFF
  }

  /** Offsets that agree in their low five bits read the same register. */
  lemma ChipReadRepeats(regs: seq<bv8>, o1: bv32, o2: bv32, wordAccess: bool, busy: bool, bus: Bus)
    requires |regs| == 32
    ensures o1 & 0x1F == o2 & 0x1F ==>
      ChipReadValue(regs, o1, wordAccess, busy, bus) == ChipReadValue(regs, o2, wordAccess, busy, bus)
  {
  }

  // ---------------------------------------------------------------------------
  // chip_write

  /** The register file after chip_write: the register written, and for the pseudo-DMA
      read command (2 into register 5) the 0xFFFF result in registers 0 and 1. */
  function ChipWriteRegs(regs: seq<bv8>, i: nat, d: bv8): (r: seq<bv8>)
    requires |regs| == 32 && i < 32
    ensures |r| == 32 && r[i] == d
    ensures forall j :: 0 <= j < 32 && j != i ==>
      r[j] == (if i == 5 && d == 2 && j < 2 then 0xFF else regs[j])
  {
    if i == 5 && d == 2 then regs[i := d][0 := 0xFF][1 := 0xFF] else regs[i := d]
  }

  /** Writing the same value twice leaves the registers as the first write did. */
  lemma ChipWriteRegsTwice(regs: seq<bv8>, i: nat, d: bv8)
    requires |regs| == 32 && i < 32
    ensures ChipWriteRegs(ChipWriteRegs(regs, i, d), i, d) == ChipWriteRegs(regs, i, d)
  {
  }

  /** A descriptor write (registers 0x10 .. 0x1F) that changes the value rebuilds the
      mapping. */
  predicate Remaps(regs: seq<bv8>, i: nat, d: bv8)
    requires |regs| == 32 && i < 32
  {
    i >= 0x10 && regs[i] != d
  }

  /** So repeating a descriptor write never rebuilds, and nothing but a descriptor
      write does. */
  lemma RemapsOnce(regs: seq<bv8>, i: nat, d: bv8)
    requires |regs| == 32 && i < 32
    ensures !Remaps(ChipWriteRegs(regs, i, d), i, d)
    ensures i < 0x10 ==> !Remaps(regs, i, d)
  {
  }

  /** The calls chip_write makes into the rest of the board: the forced reset of
      register 2, the sound interrupt of register 3 (not on YM2413 boards) and the
      interrupt lines of register 4. */
  function ChipWriteEffects(fd1094: bool, ym2413: bool, regs: seq<bv8>, i: nat, d: bv8): (r: seq<Effect>)
    requires |regs| == 32 && i < 32
    ensures i != 2 && i != 3 && i != 4 ==> r == []
    ensures i == 2 ==> r == ResetEffects(fd1094, regs[2], d)
    ensures i == 3 ==> (r == [SoundIrq] <==> !ym2413) && (r == [] <==> ym2413)
    ensures i == 4 ==> r == IrqEffects(d)
  {
    if i == 2 then ResetEffects(fd1094, regs[2], d)
    else if i == 3 then (if ym2413 then [] else [SoundIrq])
    else if i == 4 then IrqEffects(d)
    else []
  }

  // ---------------------------------------------------------------------------
  // Register 2: forced reset

  /** chip_write resets the CPU when the low two bits of register 2 change and the new
      value has both set. */
  predicate ResetWanted(oldValue: bv8, newValue: bv8)
  {
    (oldValue ^ newValue) & 3 != 0 && newValue & 3 == 3
  }

  /** That is, exactly when the mode bits enter 3 from another value ... */
  lemma ResetOnEntry(oldValue: bv8, newValue: bv8)
    ensures ResetWanted(oldValue, newValue) <==> oldValue & 3 != 3 && newValue & 3 == 3
  {
    if newValue & 3 == 3 {
      EnterThree(oldValue, newValue);
    }
  }

  lemma EnterThree(oldValue: bv8, newValue: bv8)
    ensures newValue & 3 == 3 ==> ((oldValue ^ newValue) & 3 != 0 <==> oldValue & 3 != 3)
  {
  }

  /** ... so writing the same value again never resets. */
  lemma ResetNotRepeated(v: bv8)
    ensures !ResetWanted(v, v)
  {
  }

  /** The calls a register 2 write makes: on an FD1094 board the decryption is set up
      again (between SekClose and SekOpen) before the CPU reset. */
  function ResetEffects(fd1094: bool, oldValue: bv8, newValue: bv8): (r: seq<Effect>)
    ensures |r| > 0 <==> ResetWanted(oldValue, newValue)
    ensures |r| > 0 ==> r[|r| - 1] == CpuReset
  {
    if ResetWanted(oldValue, newValue) then
      if fd1094 then [Fd1094Init, CpuReset] else [CpuReset]
    else []
  }

  // ---------------------------------------------------------------------------
  // Register 4: interrupt encoder

  /** The interrupt line a register 4 value drives: the complement of its low three
      bits. */
  function IrqTarget(v: bv8): (n: nat)
    ensures n < 8
  {
    (!v & 7) as int
  }

  /** Line 0 is never the target of a write that acts, since that would need all three
      low bits set. */
  lemma IrqTargetNonZero(v: bv8)
    ensures v & 7 != 7 ==> IrqTarget(v) != 0
  {
    if v & 7 != 7 {
      ComplementNonZero(v);
    }
  }

  lemma ComplementNonZero(v: bv8)
    ensures v & 7 != 7 ==> !v & 7 != 0
  {
  }

  /** The line calls of the loop over interrupt numbers 0 .. 7 in chip_write: the target
      line asserted, every other line cleared; nothing when the low bits are 7. */
  function IrqEffects(v: bv8): (r: seq<Effect>)
    ensures v & 7 == 7 ==> r == []
  {
    if v & 7 != 7 then seq(8, n requires 0 <= n < 8 => IrqLine(n, n == IrqTarget(v))) else []
  }

  /** The number of line calls in `es` that assert a line. */
  function AssertedCount(es: seq<Effect>): nat
    decreases |es|
  {
    if |es| == 0 then 0
    else AssertedCount(es[..|es| - 1]) + (if es[|es| - 1].IrqLine? && es[|es| - 1].asserted then 1 else 0)
  }

  /** Among the first k calls, one is asserting when the target is below k. */
  lemma {:induction false} AssertedPrefix(v: bv8, k: nat)
    requires v & 7 != 7 && k <= 8
    ensures AssertedCount(IrqEffects(v)[..k]) == (if IrqTarget(v) < k then 1 else 0)
  {
    if k > 0 {
      var es := IrqEffects(v);
      assert es[..k][..k - 1] == es[..k - 1];
      AssertedPrefix(v, k - 1);
    }
  }

  /** A register 4 write whose low bits are not 7 makes eight line calls, one per
      line in order, and asserts exactly one line, which is between 1 and 7. */
  lemma IrqExactlyOne(v: bv8)
    requires v & 7 != 7
    ensures |IrqEffects(v)| == 8
    ensures forall n :: 0 <= n < 8 ==> IrqEffects(v)[n].IrqLine? && IrqEffects(v)[n].line == n
    ensures AssertedCount(IrqEffects(v)) == 1
    ensures 1 <= IrqTarget(v) <= 7
    ensures IrqEffects(v)[IrqTarget(v)].asserted
  {
    AssertedPrefix(v, 8);
    assert IrqEffects(v)[..8] == IrqEffects(v);
    IrqTargetNonZero(v);
  }

  // ---------------------------------------------------------------------------
  // Register 5: the pseudo-DMA address latches

  /** The 68000 address latched in three registers: `(hi << 17) | (mid << 9) | (lo << 1)`. */
  function DmaAddress(hi: bv8, mid: bv8, lo: bv8): bv32
  {
    ((hi as bv32) << 17) | ((mid as bv32) << 9) | ((lo as bv32) << 1)
  }

  /** The address is even, and each latch can be read back from it. */
  lemma DmaAddressEven(hi: bv8, mid: bv8, lo: bv8)
    ensures DmaAddress(hi, mid, lo) & 1 == 0
  {
  }

  lemma DmaAddressLow(hi: bv8, mid: bv8, lo: bv8)
    ensures (DmaAddress(hi, mid, lo) >> 1) & 0xFF == lo as bv32
  {
  }

  lemma DmaAddressMiddle(hi: bv8, mid: bv8, lo: bv8)
    ensures (DmaAddress(hi, mid, lo) >> 9) & 0xFF == mid as bv32
  {
  }

  lemma DmaAddressHigh(hi: bv8, mid: bv8, lo: bv8)
    ensures DmaAddress(hi, mid, lo) >> 17 == hi as bv32
  {
  }
}
