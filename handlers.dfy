/** What the four bus handlers do once the route of an access is known: the value a
    read returns, and the action a write takes (a call into the board, a latch of
    the video or tile-bank state, or a register write). */
module Handlers {
  import opened Bits
  import opened Options
  import opened Devices
  import opened Registers
  import opened Layout
  import opened Routing

  /** `(a - start) >> 1` narrowed to the UINT16 offset a handler passes to a soft
      region. */
  function WindowOffset(a: bv32, start: bv32): (o: bv32)
    ensures o & !0xFFFF == 0
  {
    Narrow16(Sub32(a, start) >> 1)
  }

  function Narrow16(x: bv32): (o: bv32)
    ensures o & !0xFFFF == 0
  {
    x & 0xFFFF
  }

  // ---------------------------------------------------------------------------
  // Reads

  /** A read of the I/O window: the custom handler when a driver installed one, else
      io_read, whose byte is widened to the word the handler returns; io_read falls
      back on the low byte of the open bus. */
  function IoReply(custom: bool, o: bv32, ym2413: bool, bus: Bus, busy: bool): (v: bv16)
    requires BusValid(bus)
    ensures !custom && IoRead(o, ym2413, bus).Some? ==> v == IoRead(o, ym2413, bus).value as bv16
    ensures !custom && IoRead(o, ym2413, bus).None? && !busy ==> v == bus.romAtPc as bv16
  {
    if custom then bus.customIo(o)
    else
      match IoRead(o, ym2413, bus)
      case Some(b) => b as bv16
      case None => LowByte(OpenBus(busy, bus)) as bv16
  }

  /** A read of the first 315-5797 window: math1_5797_read, which falls back on the
      whole open-bus word. */
  function Math1Reply(o: bv32, bus: Bus, busy: bool): (v: bv16)
    ensures Math1Read(o, bus).None? ==> v == OpenBus(busy, bus)
    ensures Math1Read(o, bus).Some? ==> v == Math1Read(o, bus).value
  {
    match Math1Read(o, bus)
    case Some(w) => w
    case None => OpenBus(busy, bus)
  }

  /** The word a read handler returns for route `hit`: the winning region's device at
      the offset into the range that passed, or `chip_read(a >> 1, 16)` when no range
      passed. The second window is compare/timer chip 1. Only the regions of read_word
      are ever routed to by a read handler. */
  function ReadReply(hit: Option<Probe>, a: bv32, regs: seq<bv8>, custom: bool, ym2413: bool,
                     bus: Bus, busy: bool): (v: bv16)
    requires |regs| == 32 && BusValid(bus)
    requires hit.Some? ==> hit.value.kind in ReadWordKinds
    ensures hit.None? ==> v == ChipReadValue(regs, a >> 1, true, busy, bus) as bv16
    ensures hit.Some? && hit.value.kind == Io ==>
      v == IoReply(custom, WindowOffset(a, hit.value.span.start), ym2413, bus, busy)
    ensures hit.Some? && hit.value.kind == Math1 ==>
      v == Math1Reply(WindowOffset(a, hit.value.span.start), bus, busy)
    ensures hit.Some? && hit.value.kind == Math2 ==>
      v == bus.compareTimer(1, WindowOffset(a, hit.value.span.start))
  {
    match hit
    case None => ChipReadValue(regs, a >> 1, true, busy, bus) as bv16
    case Some(p) =>
      var o := WindowOffset(a, p.span.start);
      if p.kind == Io then IoReply(custom, o, ym2413, bus, busy)
      else if p.kind == Math1 then Math1Reply(o, bus, busy)
      else bus.compareTimer(1, o)
  }

  /** read_byte returns the byte of that word: the handlers share the reply, read_byte
      narrows it to its UINT8 result. */
  function ReadByteReply(hit: Option<Probe>, a: bv32, regs: seq<bv8>, custom: bool, ym2413: bool,
                         bus: Bus, busy: bool): (v: bv8)
    requires |regs| == 32 && BusValid(bus)
    requires hit.Some? ==> hit.value.kind in ReadWordKinds
    ensures hit.None? ==> v == ChipReadValue(regs, a >> 1, true, busy, bus)
  {
    LowByte(ReadReply(hit, a, regs, custom, ym2413, bus, busy))
  }

  /** A read no range holds answers a register byte: the high byte of the word is 0,
      whatever the width of the access. */
  lemma UnroutedReadIsByte(a: bv32, regs: seq<bv8>, custom: bool, ym2413: bool, bus: Bus, busy: bool)
    requires |regs| == 32 && BusValid(bus)
    ensures ReadReply(None, a, regs, custom, ym2413, bus, busy) & 0xFF00 == 0
  {
    WidenedByte(ChipReadValue(regs, a >> 1, true, busy, bus));
  }

  lemma WidenedByte(b: bv8)
    ensures (b as bv16) & 0xFF00 == 0
  {
  }

  /** A byte widened to a word comes back from LowByte unchanged. */
  lemma LowByteWiden(b: bv8)
    ensures LowByte(b as bv16) == b
  {
  }

  /** Reads through two ranges of the same region at the same window offset return the
      same value: an alias serves the same port as the primary range. */
  lemma ReplyByOffset(p: Probe, q: Probe, a: bv32, b: bv32, regs: seq<bv8>, custom: bool, ym2413: bool,
                      bus: Bus, busy: bool)
    requires |regs| == 32 && BusValid(bus)
    requires p.kind == q.kind && p.kind in ReadWordKinds && WindowOffset(a, p.span.start) == WindowOffset(b, q.span.start)
    ensures ReadReply(Some(p), a, regs, custom, ym2413, bus, busy) == ReadReply(Some(q), b, regs, custom, ym2413, bus, busy)
  {
  }

  // ---------------------------------------------------------------------------
  // Writes

  /** What a write handler does for its route. */
  datatype Action =
    | Emit(effect: Effect)                  // a call into another device
    | Latch(offset: bv32, byte: bv8)        // sega_315_5195_io_write
    | Bank(offset: bv32, byte: bv8)         // bank_5704_write
    | Ym2413(offset: bv32, byte: bv8)       // korean_sound_write
    | MathWrite(offset: bv32, word: bv16)   // math1_5797_write
    | RegisterWrite(offset: bv32, byte: bv8) // chip_write

  /** write_byte's action: tile RAM gets the byte at the flipped byte offset (no
      halving), the I/O window goes to the custom handler when one is installed, the
      second window to compare/timer chip 1; with no passing range the byte goes to
      `chip_write(a >> 1, d)`. */
  function WriteByteAction(hit: Option<Probe>, a: bv32, d: bv8, customWrite: bool): (act: Action)
    ensures hit.None? <==> act == RegisterWrite(a >> 1, d)
  {
    match hit
    case None => RegisterWrite(a >> 1, d)
    case Some(p) =>
      var o := WindowOffset(a, p.span.start);
      match p.kind
      case Tiles => Emit(TileByteWrite(Sub32(a, p.span.start) ^ 1, d))
      case Io => if customWrite then Emit(CustomIoWrite(o, d)) else Latch(o, d)
      case Bank5704 => Bank(o, d)
      case KoreanSound => Ym2413(o, d)
      case Math1 => MathWrite(o, d as bv16)
      case Math2 => Emit(CompareTimerWrite(1, o, d as bv16))
  }

  /** write_word's action: tile RAM gets the word at the byte offset, the I/O window
      and the bank latch the low byte, the 5797 windows the whole word; with no passing
      range the low byte goes to `chip_write(a >> 1, d & 0xff)`. */
  function WriteWordAction(hit: Option<Probe>, a: bv32, d: bv16, customWrite: bool): (act: Action)
    ensures hit.None? <==> act == RegisterWrite(a >> 1, LowByte(d))
  {
    match hit
    case None => RegisterWrite(a >> 1, LowByte(d))
    case Some(p) =>
      var o := WindowOffset(a, p.span.start);
      match p.kind
      case Tiles => Emit(TileWordWrite(Sub32(a, p.span.start), d))
      case Io => if customWrite then Emit(CustomIoWrite(o, LowByte(d))) else Latch(o, LowByte(d))
      case Bank5704 => Bank(o, LowByte(d))
      case Math1 => MathWrite(o, d)
      case Math2 => Emit(CompareTimerWrite(1, o, d))
      case KoreanSound => Ym2413(o, LowByte(d))
  }

  /** A write to the registers is the only action left for an address that no soft
      range holds; in particular every write handler sends address 0 to register 0. */
  lemma WriteAtZero(s: Snapshot, d: bv8, w: bv16, customWrite: bool)
    requires Shaped(s)
    ensures WriteByteAction(WriteByteRoute(s, 0), 0, d, customWrite) == RegisterWrite(0, d)
    ensures WriteWordAction(WriteWordRoute(s, 0), 0, w, customWrite) == RegisterWrite(0, LowByte(w))
  {
    HandlerMissesZero(s, WriteBytePrimaryKinds, WriteByteMirrorKinds);
    HandlerMissesZero(s, WriteWordPrimaryKinds, WriteWordMirrorKinds);
  }

  // ---------------------------------------------------------------------------
  // The board state the writes touch

  /** The System 16 globals the mapper writes: the tile banks, the four tile-map
      recalculation flags, the video enable and screen flip latches and the sound
      latch. */
  datatype BoardState = BoardState(
    tileBanks: seq<int>,
    recalcBg: bool,
    recalcBgAlt: bool,
    recalcFg: bool,
    recalcFgAlt: bool,
    videoEnable: bv8,
    screenFlip: bv8,
    soundLatch: bv8)

  /** The tile-bank latch (bank_5704_write and group 0x1000 of math1_5797_write): a new
      bank number flags every tile map for recalculation; the same number changes
      nothing. */
  function SetTileBank(b: BoardState, index: nat, value: int): (c: BoardState)
    requires index < |b.tileBanks|
    ensures c.tileBanks == b.tileBanks[index := value]
    ensures b.tileBanks[index] == value ==> c == b
    ensures b.tileBanks[index] != value ==>
      c == b.(tileBanks := c.tileBanks, recalcBg := true, recalcBgAlt := true, recalcFg := true, recalcFgAlt := true)
  {
    if b.tileBanks[index] != value then
      b.(tileBanks := b.tileBanks[index := value],
         recalcBg := true, recalcBgAlt := true, recalcFg := true, recalcFgAlt := true)
    else b
  }

  /** Latching a bank twice is latching it once. */
  lemma SetTileBankTwice(b: BoardState, index: nat, value: int)
    requires index < |b.tileBanks|
    ensures SetTileBank(SetTileBank(b, index, value), index, value) == SetTileBank(b, index, value)
  {
  }

  /** The board after an action other than a register write. Only the I/O latch and
      the two bank latches touch it. */
  function ActOnBoard(b: BoardState, act: Action): (c: BoardState)
    requires |b.tileBanks| >= 2
    ensures |c.tileBanks| == |b.tileBanks|
    ensures act.Emit? || act.Ym2413? || act.RegisterWrite? ==> c == b
    ensures c.soundLatch == b.soundLatch
  {
    match act
    case Latch(o, d) =>
      (match IoWrite(o, d)
       case Some(flags) => b.(videoEnable := flags.0, screenFlip := flags.1)
       case None => b)
    case Bank(o, d) => SetTileBank(b, BankIndex(o), BankValue(d as bv16))
    case MathWrite(o, w) =>
      if Math1WritePort(o) == BankPort then SetTileBank(b, BankIndex(o & 0x1FFF), BankValue(w)) else b
    case _ => b
  }

  /** The calls into other devices an action other than a register write makes. */
  function ActEffects(act: Action): (r: seq<Effect>)
    ensures act.Latch? || act.Bank? || act.RegisterWrite? ==> r == []
    ensures |r| <= 1
  {
    match act
    case Emit(e) => [e]
    case Ym2413(o, d) =>
      (match KoreanPort(o)
       case Some(port) => [Ym2413Write(port, d)]
       case None => [])
    case MathWrite(o, w) =>
      (match Math1WritePort(o)
       case MultiplyPort => [MultiplyWrite(o & 0x1FFF, w)]
       case TimerPort => [CompareTimerWrite(0, o & 0x1FFF, w)]
       case _ => [])
    case _ => []
  }

  /** A math1 write changes the board only through the bank latch ... */
  lemma MathBoardOutcome(b: BoardState, o: bv32, w: bv16)
    requires |b.tileBanks| >= 2
    ensures ActOnBoard(b, MathWrite(o, w))
      == if Math1WritePort(o) == BankPort then SetTileBank(b, BankIndex(o & 0x1FFF), BankValue(w)) else b
  {
  }

  /** ... and calls the multiply chip or compare/timer chip 0 at the 13-bit offset. */
  lemma MathCallOutcome(o: bv32, w: bv16)
    ensures Math1WritePort(o) == MultiplyPort ==> ActEffects(MathWrite(o, w)) == [MultiplyWrite(o & 0x1FFF, w)]
    ensures Math1WritePort(o) == TimerPort ==> ActEffects(MathWrite(o, w)) == [CompareTimerWrite(0, o & 0x1FFF, w)]
    ensures Math1WritePort(o) == BankPort || Math1WritePort(o) == NoPort ==> ActEffects(MathWrite(o, w)) == []
  {
  }

  /** korean_sound_write calls the YM2413 once, at port 0 for offset 0 and port 1 for
      offset 1, with the byte written; any other offset makes no call. */
  lemma KoreanSoundOutcome(o: bv32, d: bv8)
    ensures o == 0 ==> ActEffects(Ym2413(o, d)) == [Ym2413Write(0, d)]
    ensures o == 1 ==> ActEffects(Ym2413(o, d)) == [Ym2413Write(1, d)]
    ensures o > 1 ==> ActEffects(Ym2413(o, d)) == []
  {
  }

  /** Repeating an action leaves the board as doing it once: the latches hold the
      last value written and a repeated bank number flags nothing. */
  lemma ActOnBoardTwice(b: BoardState, act: Action)
    requires |b.tileBanks| >= 2
    ensures ActOnBoard(ActOnBoard(b, act), act) == ActOnBoard(b, act)
  {
    match act
    case Latch(o, d) => LatchTwice(b, o, d);
    case Bank(o, d) => BankTwice(b, o, d);
    case MathWrite(o, w) => MathTwice(b, o, w);
    case _ =>
  }

  lemma BankTwice(b: BoardState, o: bv32, d: bv8)
    requires |b.tileBanks| >= 2
    ensures ActOnBoard(ActOnBoard(b, Bank(o, d)), Bank(o, d)) == ActOnBoard(b, Bank(o, d))
  {
    SetTileBankTwice(b, BankIndex(o), BankValue(d as bv16));
  }

  lemma MathTwice(b: BoardState, o: bv32, w: bv16)
    requires |b.tileBanks| >= 2
    ensures ActOnBoard(ActOnBoard(b, MathWrite(o, w)), MathWrite(o, w)) == ActOnBoard(b, MathWrite(o, w))
  {
    if Math1WritePort(o) == BankPort {
      SetTileBankTwice(b, BankIndex(o & 0x1FFF), BankValue(w));
    }
  }

  lemma LatchTwice(b: BoardState, o: bv32, d: bv8)
    requires |b.tileBanks| >= 2
    ensures ActOnBoard(ActOnBoard(b, Latch(o, d)), Latch(o, d)) == ActOnBoard(b, Latch(o, d))
  {
  }

  /** A write to group 0x1000 of the first 5797 window latches the same bank as the
      5704 latch does for the low byte of the word. */
  lemma MathBankIsBankLatch(b: BoardState, o: bv32, w: bv16)
    requires |b.tileBanks| >= 2
    requires Group(o) == 0x1000
    ensures ActOnBoard(b, MathWrite(o, w)) == ActOnBoard(b, Bank(o, LowByte(w)))
  {
    GroupValues(o);
    BankBits(o, w);
  }

  lemma BankBits(o: bv32, w: bv16)
    ensures BankIndex(o & 0x1FFF) == BankIndex(o)
    ensures BankValue(LowByte(w) as bv16) == BankValue(w)
  {
  }
}
