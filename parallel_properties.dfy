/**
 * What ParallelClass guarantees: which pins `begin` routes and in what
 * order, the clamping of the address-line count, the base-address table,
 * the 24-bit window of `read` and `write`, and the idempotence of `begin`.
 */
module ParallelProperties {
  import opened ParallelTypes
  import opened Hardware
  import opened Parallel

  // ---------------------------------------------------------------------------
  // Chip selects (Parallel.h)
  // ---------------------------------------------------------------------------

  /** Every enumerator is found again from its value, and no two share one. */
  lemma ChipSelectRoundTrip(cs: ChipSelect, other: ChipSelect)
    ensures ChipSelectOf(cs.Value()) == Some(cs)
    ensures cs.Value() == other.Value() ==> cs == other
  {
  }

  /** Channel 2 has no enumerator; PARALLEL_CS_NONE lies above every real channel. */
  lemma NoneAboveChannels(cs: ChipSelect)
    ensures ChipSelectOf(2) == None
    ensures cs.IsChannel() <==> cs != CsNone
    ensures cs.IsChannel() ==> cs.Value() < ChipSelectPinCount && cs.Value() < |ChipSelectAddresses|
  {
  }

  // ---------------------------------------------------------------------------
  // Base addresses (Parallel.cpp, chipSelectAddresses and getAddress)
  // ---------------------------------------------------------------------------

  /** chipSelectAddresses[i] is channel i's window, 16 MiB apart from 0x60000000. */
  lemma ChipSelectAddressesFormula(i: nat)
    requires i < |ChipSelectAddresses|
    ensures ChipSelectAddresses[i] == 0x6000_0000 + i * WindowSize
  {
  }

  /** With no chip select the window is channel 0's, and it is never the null address. */
  lemma NoneUsesChannelZeroWindow()
    ensures BaseAddress(CsNone) == BaseAddress(Cs0) == ChipSelectAddresses[0] != 0
  {
  }

  /**
   * `begin` with no chip select, then `setAddressSetupTiming`: the accesses
   * land in channel 0's window, while the mode and the setup timings go to
   * SMC register index 4, and register index 0 keeps what it held.
   */
  method NoneProgramsAnotherRegister(port: ParallelClass, hw: Peripheral, width: BusWidth,
                                     numAddressLines: uint8, readEnable: uint8, writeEnable: uint8,
                                     nweSetup: uint8, ncsWrSetup: uint8, nrdSetup: uint8, ncsRdSetup: uint8,
                                     offset: uint32)
    modifies port, hw`pinLog, hw`smcClock, hw`mode, hw`setup
    ensures port.cs == CsNone && port.GetAddress() == 0x6000_0000
    ensures BusAddress(port.addr, offset) == BusAddress(BaseAddress(Cs0), offset)
    ensures 4 in hw.mode && hw.mode[4] == BeginMode()
    ensures 4 in hw.setup && hw.setup[4] == SetupReg(nweSetup, ncsWrSetup, nrdSetup, ncsRdSetup)
    ensures 0 in hw.mode <==> 0 in old(hw.mode)
    ensures 0 in old(hw.mode) ==> hw.mode[0] == old(hw.mode)[0]
    ensures 0 in hw.setup <==> 0 in old(hw.setup)
    ensures 0 in old(hw.setup) ==> hw.setup[0] == old(hw.setup)[0]
  {
    port.Begin(hw, width, CsNone, numAddressLines, readEnable, writeEnable);
    port.SetAddressSetupTiming(hw, nweSetup, ncsWrSetup, nrdSetup, ncsRdSetup);
  }

  // ---------------------------------------------------------------------------
  // The mode register
  // ---------------------------------------------------------------------------

  /**
   * `begin` programs the mode `setMode` would with the default controls
   * (NRD and NWE), and both always select an 8-bit data bus.
   */
  lemma ModesAreEightBit(readMode: ReadMode, writeMode: WriteMode)
    ensures BeginMode() == SelectedMode(ReadNrdCtrl, WriteNweCtrl)
    ensures BeginMode().dataBusWidth == SelectedMode(readMode, writeMode).dataBusWidth == BusWidth8
  {
  }

  // ---------------------------------------------------------------------------
  // The 24-bit window of read and write
  // ---------------------------------------------------------------------------

  /** A base whose window fits below 4 GiB: the 32-bit sum never wraps. */
  lemma BusAddressInWindow(base: uint32, offset: uint32)
    requires base + WindowSize <= 0x1_0000_0000
    ensures BusAddress(base, offset) == base + Low24(offset)
    ensures base <= BusAddress(base, offset) < base + WindowSize
  {
  }

  /** Every access after `begin` lies inside the chosen channel's window. */
  lemma ChannelAccessInWindow(cs: ChipSelect, offset: uint32)
    ensures BaseAddress(cs) <= BusAddress(BaseAddress(cs), offset) < BaseAddress(cs) + WindowSize
    ensures BusAddress(BaseAddress(cs), offset) == BaseAddress(cs) + offset % WindowSize
  {
    BusAddressInWindow(BaseAddress(cs), offset);
  }

  /** Two offsets reach the same address exactly when their low 24 bits agree. */
  lemma BusAddressAliasing(base: uint32, o1: uint32, o2: uint32)
    ensures BusAddress(base, o1) == BusAddress(base, o2) <==> Low24(o1) == Low24(o2)
  {
    var a, b := Low24(o1), Low24(o2);
    var m := 0x1_0000_0000;
    assert base + a < m + m && base + b < m + m;
  }

  /** Setting bits above bit 23 of an offset does not move the access. */
  lemma HighBitsIgnored(base: uint32, offset: uint32, k: nat)
    requires offset + k * WindowSize < 0x1_0000_0000
    ensures BusAddress(base, offset + k * WindowSize) == BusAddress(base, offset)
  {
    var o: uint32 := offset + k * WindowSize;
    assert Low24(o) == Low24(offset) by {
      LowBitsOfShift(offset, k);
    }
  }

  lemma {:induction false} LowBitsOfShift(offset: nat, k: nat)
    ensures (offset + k * WindowSize) % WindowSize == offset % WindowSize
  {
    if k > 0 {
      LowBitsOfShift(offset, k - 1);
      assert offset + k * WindowSize == (offset + (k - 1) * WindowSize) + WindowSize;
    }
  }

  /** The windows of two different real channels never overlap. */
  lemma ChannelWindowsDisjoint(c1: ChipSelect, c2: ChipSelect, o1: uint32, o2: uint32)
    requires c1.IsChannel() && c2.IsChannel() && c1 != c2
    ensures BusAddress(BaseAddress(c1), o1) != BusAddress(BaseAddress(c2), o2)
  {
    ChannelAccessInWindow(c1, o1);
    ChannelAccessInWindow(c2, o2);
    ChipSelectRoundTrip(c1, c2);
  }

  // ---------------------------------------------------------------------------
  // The pins begin routes
  // ---------------------------------------------------------------------------

  /**
   * The pins `begin` should route, stated independently of its code: data
   * pins 0..7, or 0..15 for a 16-bit width; address pins below both the
   * request and the table length; each strobe when its flag is non-zero;
   * the chip select's own line when it names a channel.
   */
  predicate Routes(width: BusWidth, cs: ChipSelect, numAddressLines: uint8,
                   readEnable: uint8, writeEnable: uint8, p: Pin)
  {
    match p
    case Data(i) => i < 8 || (width == BusWidth16 && i < 16)
    case Address(i) => i < numAddressLines && i < AddressPinCount
    case ReadStrobe => readEnable != 0
    case WriteStrobe => writeEnable != 0
    case ChipSelectLine(i) => cs != CsNone && i == cs.Value()
  }

  lemma InPrefix(bank: Bank, n: nat, p: Pin)
    ensures p in Prefix(bank, n) <==>
      match p
      case Data(i) => bank == DataBank && i < n
      case Address(i) => bank == AddressBank && i < n
      case _ => false
  {
    match p
    case Data(i) =>
      if bank == DataBank && i < n { assert Prefix(bank, n)[i] == p; }
    case Address(i) =>
      if bank == AddressBank && i < n { assert Prefix(bank, n)[i] == p; }
    case _ =>
  }

  /** `begin` routes a pin if and only if `Routes` says it should. */
  lemma BeginPinsExactly(width: BusWidth, cs: ChipSelect, numAddressLines: uint8,
                         readEnable: uint8, writeEnable: uint8, p: Pin)
    ensures p in BeginPins(width, cs, numAddressLines, readEnable, writeEnable)
            <==> Routes(width, cs, numAddressLines, readEnable, writeEnable, p)
  {
    InPrefix(DataBank, DataLineCount(width), p);
    InPrefix(AddressBank, ClampAddressLines(numAddressLines), p);
  }

  /** Every table access of `begin` is in bounds, and NCS2 is never touched. */
  lemma BeginPinsInTables(width: BusWidth, cs: ChipSelect, numAddressLines: uint8,
                          readEnable: uint8, writeEnable: uint8)
    ensures forall p | p in BeginPins(width, cs, numAddressLines, readEnable, writeEnable) :: InTables(p)
    ensures ChipSelectLine(2) !in BeginPins(width, cs, numAddressLines, readEnable, writeEnable)
  {
    forall p | p in BeginPins(width, cs, numAddressLines, readEnable, writeEnable)
      ensures InTables(p)
    {
      BeginPinsExactly(width, cs, numAddressLines, readEnable, writeEnable, p);
    }
    BeginPinsExactly(width, cs, numAddressLines, readEnable, writeEnable, ChipSelectLine(2));
  }

  /** The calls of `begin` after the data and address loops: strobes, then the chip-select line. */
  function ControlPins(cs: ChipSelect, readEnable: uint8, writeEnable: uint8): seq<Pin>
  {
    OnlyIf(readEnable > 0, ReadStrobe) + OnlyIf(writeEnable > 0, WriteStrobe)
    + OnlyIf(cs.IsChannel(), ChipSelectLine(cs.Value()))
  }

  /** What `begin` configures at each position of its sequence of calls. */
  lemma BeginPinAt(width: BusWidth, cs: ChipSelect, numAddressLines: uint8,
                   readEnable: uint8, writeEnable: uint8, q: nat)
    requires q < |BeginPins(width, cs, numAddressLines, readEnable, writeEnable)|
    ensures var pins, d, a := BeginPins(width, cs, numAddressLines, readEnable, writeEnable),
                              DataLineCount(width), ClampAddressLines(numAddressLines);
            && |pins| == d + a + |ControlPins(cs, readEnable, writeEnable)|
            && (q < d ==> pins[q] == Data(q))
            && (d <= q < d + a ==> pins[q] == Address(q - d))
            && (d + a <= q ==> pins[q] == ControlPins(cs, readEnable, writeEnable)[q - d - a])
  {
    var d := Prefix(DataBank, DataLineCount(width));
    var a := Prefix(AddressBank, ClampAddressLines(numAddressLines));
    var r := OnlyIf(readEnable > 0, ReadStrobe);
    var w := OnlyIf(writeEnable > 0, WriteStrobe);
    var c := OnlyIf(cs.IsChannel(), ChipSelectLine(cs.Value()));
    var pins := BeginPins(width, cs, numAddressLines, readEnable, writeEnable);
    assert pins == (d + a) + ((r + w) + c);
  }

  /**
   * The address pins follow the data pins directly, in increasing index
   * order: position DataLineCount(width) + k holds AddressPins[k].
   */
  lemma BeginAddressOrder(width: BusWidth, cs: ChipSelect, numAddressLines: uint8,
                          readEnable: uint8, writeEnable: uint8, k: nat)
    requires k < ClampAddressLines(numAddressLines)
    ensures DataLineCount(width) + k < |BeginPins(width, cs, numAddressLines, readEnable, writeEnable)|
    ensures BeginPins(width, cs, numAddressLines, readEnable, writeEnable)[DataLineCount(width) + k] == Address(k)
  {
    BeginPinAt(width, cs, numAddressLines, readEnable, writeEnable, 0);
    BeginPinAt(width, cs, numAddressLines, readEnable, writeEnable, DataLineCount(width) + k);
  }

  /** Whichever two positions hold address pins, the earlier one has the lower index. */
  lemma BeginAddressIncreasing(width: BusWidth, cs: ChipSelect, numAddressLines: uint8,
                               readEnable: uint8, writeEnable: uint8, i: nat, j: nat)
    requires i < j < |BeginPins(width, cs, numAddressLines, readEnable, writeEnable)|
    requires BeginPins(width, cs, numAddressLines, readEnable, writeEnable)[i].Address?
    requires BeginPins(width, cs, numAddressLines, readEnable, writeEnable)[j].Address?
    ensures BeginPins(width, cs, numAddressLines, readEnable, writeEnable)[i].index
            < BeginPins(width, cs, numAddressLines, readEnable, writeEnable)[j].index
  {
    BeginPinAt(width, cs, numAddressLines, readEnable, writeEnable, i);
    BeginPinAt(width, cs, numAddressLines, readEnable, writeEnable, j);
    ControlPinsKinds(cs, readEnable, writeEnable);
  }

  /** The control calls are strobes or chip-select lines, each kind at most once. */
  lemma ControlPinsKinds(cs: ChipSelect, readEnable: uint8, writeEnable: uint8)
    ensures forall q :: 0 <= q < |ControlPins(cs, readEnable, writeEnable)| ==>
      var p := ControlPins(cs, readEnable, writeEnable)[q];
      p.ReadStrobe? || p.WriteStrobe? || p.ChipSelectLine?
    ensures forall i, j :: 0 <= i < j < |ControlPins(cs, readEnable, writeEnable)| ==>
      ControlPins(cs, readEnable, writeEnable)[i] != ControlPins(cs, readEnable, writeEnable)[j]
  {
  }

  /** `begin` configures no pin twice. */
  lemma BeginPinsDistinct(width: BusWidth, cs: ChipSelect, numAddressLines: uint8,
                          readEnable: uint8, writeEnable: uint8, i: nat, j: nat)
    requires i < j < |BeginPins(width, cs, numAddressLines, readEnable, writeEnable)|
    ensures BeginPins(width, cs, numAddressLines, readEnable, writeEnable)[i]
            != BeginPins(width, cs, numAddressLines, readEnable, writeEnable)[j]
  {
    BeginPinAt(width, cs, numAddressLines, readEnable, writeEnable, i);
    BeginPinAt(width, cs, numAddressLines, readEnable, writeEnable, j);
    ControlPinsKinds(cs, readEnable, writeEnable);
  }

  /** A request above the table length behaves exactly like the table length. */
  lemma BeginClampSaturates(width: BusWidth, cs: ChipSelect, numAddressLines: uint8,
                            readEnable: uint8, writeEnable: uint8)
    requires numAddressLines >= AddressPinCount
    ensures BeginPins(width, cs, numAddressLines, readEnable, writeEnable)
            == BeginPins(width, cs, AddressPinCount, readEnable, writeEnable)
  {
  }

  /** Routing the pins of `begin` a second time routes nothing new. */
  lemma BeginPinsIdempotent(log: seq<Pin>, width: BusWidth, cs: ChipSelect, numAddressLines: uint8,
                            readEnable: uint8, writeEnable: uint8)
    ensures PinSet(log + BeginPins(width, cs, numAddressLines, readEnable, writeEnable)
                   + BeginPins(width, cs, numAddressLines, readEnable, writeEnable))
            == PinSet(log + BeginPins(width, cs, numAddressLines, readEnable, writeEnable))
  {
    var pins := BeginPins(width, cs, numAddressLines, readEnable, writeEnable);
    LogAppendConfigures(log + pins, pins);
    LogAppendConfigures(log, pins);
  }

  /**
   * `begin(BusWidth8, Cs1, 8, 1, 1)`: all eight address lines are routed
   * (the clamp is 23, not 6), both strobes and NCS1, and the window is
   * channel 1's.
   */
  lemma ChannelOneScenario()
    ensures forall k :: 0 <= k < 8 ==> Address(k) in BeginPins(BusWidth8, Cs1, 8, 1, 1)
    ensures Address(8) !in BeginPins(BusWidth8, Cs1, 8, 1, 1)
    ensures ReadStrobe in BeginPins(BusWidth8, Cs1, 8, 1, 1)
    ensures WriteStrobe in BeginPins(BusWidth8, Cs1, 8, 1, 1)
    ensures ChipSelectLine(1) in BeginPins(BusWidth8, Cs1, 8, 1, 1)
    ensures BaseAddress(Cs1) == 0x6100_0000
  {
    forall k | 0 <= k < 8 ensures Address(k) in BeginPins(BusWidth8, Cs1, 8, 1, 1) {
      BeginPinsExactly(BusWidth8, Cs1, 8, 1, 1, Address(k));
    }
    BeginPinsExactly(BusWidth8, Cs1, 8, 1, 1, Address(8));
    BeginPinsExactly(BusWidth8, Cs1, 8, 1, 1, ReadStrobe);
    BeginPinsExactly(BusWidth8, Cs1, 8, 1, 1, WriteStrobe);
    BeginPinsExactly(BusWidth8, Cs1, 8, 1, 1, ChipSelectLine(1));
  }

  /** `begin(width, CsNone, 0, 0, 0)`: only data pins, no chip-select line. */
  lemma NoChipSelectScenario(width: BusWidth, p: Pin)
    ensures p in BeginPins(width, CsNone, 0, 0, 0) ==> p.Data?
  {
    BeginPinsExactly(width, CsNone, 0, 0, 0, p);
  }

  // ---------------------------------------------------------------------------
  // begin on the object and the peripherals
  // ---------------------------------------------------------------------------

  /**
   * Calling `begin` twice with the same arguments leaves the object, the
   * routed pins and the registers as one call does.
   */
  method BeginTwice(port: ParallelClass, hw: Peripheral, width: BusWidth, cs: ChipSelect,
                    numAddressLines: uint8, readEnable: uint8, writeEnable: uint8)
    modifies port, hw`pinLog, hw`smcClock, hw`mode
    ensures port.cs == cs && port.addr == BaseAddress(cs)
    ensures hw.Configured() == PinSet(old(hw.pinLog) + BeginPins(width, cs, numAddressLines, readEnable, writeEnable))
    ensures hw.smcClock && hw.mode == old(hw.mode)[cs.Value() := BeginMode()]
  {
    port.Begin(hw, width, cs, numAddressLines, readEnable, writeEnable);
    port.Begin(hw, width, cs, numAddressLines, readEnable, writeEnable);
    BeginPinsIdempotent(old(hw.pinLog), width, cs, numAddressLines, readEnable, writeEnable);
  }
}
