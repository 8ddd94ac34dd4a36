/**
 * Parallel.cpp: the pin tables' sizes, the chip-select base addresses, and
 * ParallelClass, whose whole software state is the chip select `cs` and the
 * window base address `addr`. Everything else it touches lives in the
 * peripherals (module Hardware), passed in explicitly.
 */
module Parallel {
  import opened ParallelTypes
  import opened Hardware

  /** Number of entries of DataPins (D0..D15; D8 and D9 are not wired). */
  const DataPinCount: nat := 16

  /** Number of entries of AddressPins (A0..A22). */
  const AddressPinCount: nat := 23

  /** Number of entries of ChipSelectPins (NCS0..NCS3). */
  const ChipSelectPinCount: nat := 4

  /** chipSelectAddresses: the fixed base address of each chip select's window. */
  const ChipSelectAddresses: seq<uint32> := [0x6000_0000, 0x6100_0000, 0x6200_0000, 0x6300_0000]

  /** Size of one chip select's window: the mask 0x00FFFFFF keeps 24 offset bits. */
  const WindowSize: nat := 0x100_0000

  /** Whether `p` names an existing entry of its table. */
  predicate InTables(p: Pin)
  {
    match p
    case Data(i) => i < DataPinCount
    case Address(i) => i < AddressPinCount
    case ChipSelectLine(i) => i < ChipSelectPinCount
    case ReadStrobe => true
    case WriteStrobe => true
  }

  /** The two tables that `begin` walks with a loop. */
  datatype Bank = DataBank | AddressBank

  function BankPin(bank: Bank, i: nat): Pin
  {
    match bank
    case DataBank => Data(i)
    case AddressBank => Address(i)
  }

  /** The first `n` entries of a table, in index order. */
  function Prefix(bank: Bank, n: nat): (r: seq<Pin>)
    ensures |r| == n
    ensures forall i :: 0 <= i < n ==> r[i] == BankPin(bank, i)
  {
    seq(n, i requires 0 <= i => BankPin(bank, i))
  }

  /** Number of data pins `begin` configures for a requested width. */
  function DataLineCount(width: BusWidth): (n: nat)
    ensures n == 8 || n == 16
    ensures n == 16 <==> width == BusWidth16
  {
    if width == BusWidth16 then 16 else 8
  }

  /** The address-line count after `begin` clamps it to the table length. */
  function ClampAddressLines(numAddressLines: uint8): (n: uint8)
    ensures n <= AddressPinCount && n <= numAddressLines
    ensures numAddressLines <= AddressPinCount ==> n == numAddressLines
    ensures numAddressLines > AddressPinCount ==> n == AddressPinCount
  {
    if numAddressLines > AddressPinCount then AddressPinCount else numAddressLines
  }

  /** The one-call sequence `[p]` when `flag` holds, no call otherwise. */
  function OnlyIf(flag: bool, p: Pin): seq<Pin>
  {
    if flag then [p] else []
  }

  /** The PIO_Configure calls of the bus part of `begin` (data, address, strobes), in order. */
  function BusPins(width: BusWidth, numAddressLines: uint8, readEnable: uint8, writeEnable: uint8): seq<Pin>
  {
    Prefix(DataBank, DataLineCount(width))
    + Prefix(AddressBank, ClampAddressLines(numAddressLines))
    + OnlyIf(readEnable > 0, ReadStrobe)
    + OnlyIf(writeEnable > 0, WriteStrobe)
  }

  /** The PIO_Configure calls `begin` makes, in order: the bus pins, then the chip-select line. */
  function BeginPins(width: BusWidth, cs: ChipSelect, numAddressLines: uint8,
                     readEnable: uint8, writeEnable: uint8): seq<Pin>
  {
    BusPins(width, numAddressLines, readEnable, writeEnable)
    + OnlyIf(cs.IsChannel(), ChipSelectLine(cs.Value()))
  }

  /**
   * The mode `begin` programs: SMC_MODE_READ_MODE | SMC_MODE_WRITE_MODE |
   * SMC_MODE_DBW_BIT_8, that is NRD- and NWE-controlled with an 8-bit bus.
   */
  function BeginMode(): (m: ModeReg)
    ensures m == SelectedMode(ReadNrdCtrl, WriteNweCtrl)
  {
    ModeReg(ReadNrdCtrl, WriteNweCtrl, BusWidth8)
  }

  /** The mode `setMode` programs: the chosen controls, always with an 8-bit bus. */
  function SelectedMode(readMode: ReadMode, writeMode: WriteMode): (m: ModeReg)
    ensures m.readMode == readMode && m.writeMode == writeMode
    ensures m.dataBusWidth == BusWidth8
  {
    ModeReg(readMode, writeMode, BusWidth8)
  }

  /**
   * The window base address for a chip select, as getAddress computes it:
   * the channel's table entry, or channel 0's when there is no chip select.
   */
  function BaseAddress(cs: ChipSelect): (a: uint32)
    ensures a == 0x6000_0000 + (if cs.IsChannel() then cs.Value() * 0x100_0000 else 0)
  {
    if cs.IsChannel() then ChipSelectAddresses[cs.Value()] else ChipSelectAddresses[0]
  }

  /** The low 24 bits of an offset, `offset & 0x00FFFFFF`. */
  function Low24(offset: uint32): (r: uint32)
    ensures r < WindowSize
    ensures (offset - r) % WindowSize == 0
  {
    offset % WindowSize
  }

  /** The address `read` and `write` access: `_addr + (offset & 0x00FFFFFF)` in 32-bit arithmetic. */
  function BusAddress(base: uint32, offset: uint32): (r: uint32)
    ensures (base + offset - r) % WindowSize == 0
    ensures base + WindowSize <= 0x1_0000_0000 ==> base <= r < base + WindowSize
  {
    (base + Low24(offset)) % 0x1_0000_0000
  }

  lemma LogStep(log: seq<Pin>, done: seq<Pin>, next: seq<Pin>)
    ensures (log + done) + next == log + (done + next)
    ensures next == [] ==> log + done + next == log + done
  {
  }

  /** Configuring the pins of `log` and then those of `more` routes both sets. */
  lemma LogAppendConfigures(log: seq<Pin>, more: seq<Pin>)
    ensures PinSet(log + more) == PinSet(log) + PinSet(more)
  {
  }

  /** The loops of `begin`: PIO_Configure on the first `n` entries of a table, in index order. */
  method ConfigurePrefix(hw: Peripheral, bank: Bank, n: nat)
    modifies hw`pinLog
    ensures hw.pinLog == old(hw.pinLog) + Prefix(bank, n)
  {
    for i := 0 to n
      invariant hw.pinLog == old(hw.pinLog) + Prefix(bank, i)
    {
      hw.PioConfigure(BankPin(bank, i));
    }
  }

  /**
   * The GPIO part of `begin`: the first 8 data pins, or 16 for a 16-bit
   * width; the first address pins, their count clamped to the table length;
   * then each strobe whose flag is non-zero.
   */
  method ConfigureBusPins(hw: Peripheral, width: BusWidth, numAddressLines: uint8,
                          readEnable: uint8, writeEnable: uint8)
    modifies hw`pinLog
    ensures hw.pinLog == old(hw.pinLog) + BusPins(width, numAddressLines, readEnable, writeEnable)
  {
    var dataPinCount: nat;
    if width == BusWidth16 {
      dataPinCount := 16;
    } else {
      dataPinCount := 8;
    }
    ConfigurePrefix(hw, DataBank, dataPinCount);
    ghost var done := Prefix(DataBank, dataPinCount);

    var lines := numAddressLines;
    if lines > AddressPinCount {
      lines := AddressPinCount;
    }
    ConfigurePrefix(hw, AddressBank, lines);
    LogStep(old(hw.pinLog), done, Prefix(AddressBank, lines));
    done := done + Prefix(AddressBank, lines);

    if readEnable > 0 {
      hw.PioConfigure(ReadStrobe);
    }
    LogStep(old(hw.pinLog), done, OnlyIf(readEnable > 0, ReadStrobe));
    done := done + OnlyIf(readEnable > 0, ReadStrobe);

    if writeEnable > 0 {
      hw.PioConfigure(WriteStrobe);
    }
    LogStep(old(hw.pinLog), done, OnlyIf(writeEnable > 0, WriteStrobe));
    done := done + OnlyIf(writeEnable > 0, WriteStrobe);
    assert dataPinCount == DataLineCount(width) && lines == ClampAddressLines(numAddressLines);
  }

  /** ParallelClass. */
  class ParallelClass {
    var cs: ChipSelect
    var addr: uint32

    /** The inline constructor of Parallel.h, which sets nothing. */
    constructor ()
    {
    }

    /** The invariant `begin` establishes: `addr` is the chip select's base address. */
    predicate Valid()
      reads this
    {
      addr == BaseAddress(cs)
    }

    /** getAddress: recomputes the base address from the chip select. */
    function GetAddress(): (a: uint32)
      reads this
      ensures Valid() ==> a == addr
      ensures a == 0x6000_0000 + (if cs.IsChannel() then cs.Value() * 0x100_0000 else 0)
    {
      BaseAddress(cs)
    }

    /** begin: routes the bus pins, records the window base address and programs the mode. */
    method Begin(hw: Peripheral, width: BusWidth, cs: ChipSelect, numAddressLines: uint8,
                 readEnable: uint8, writeEnable: uint8)
      modifies this, hw`pinLog, hw`smcClock, hw`mode
      ensures this.cs == cs && Valid()
      ensures hw.pinLog == old(hw.pinLog) + BeginPins(width, cs, numAddressLines, readEnable, writeEnable)
      ensures hw.smcClock && hw.mode == old(hw.mode)[cs.Value() := BeginMode()]
    {
      this.cs := cs;

      ConfigureBusPins(hw, width, numAddressLines, readEnable, writeEnable);

      if this.cs.IsChannel() {
        addr := ChipSelectAddresses[this.cs.Value()];
        hw.PioConfigure(ChipSelectLine(this.cs.Value()));
      } else {
        addr := ChipSelectAddresses[0];
      }
      LogStep(old(hw.pinLog), BusPins(width, numAddressLines, readEnable, writeEnable),
              OnlyIf(cs.IsChannel(), ChipSelectLine(cs.Value())));

      hw.EnableSmcClock();
      hw.SmcSetMode(this.cs.Value(), BeginMode());
    }

    /** setAddressSetupTiming: the four setup counts, unchanged, into SMC_SETUP of register `cs`. */
    method SetAddressSetupTiming(hw: Peripheral, cyclesBeforeNwe: uint8, cyclesBeforeNcsWrite: uint8,
                                 cyclesBeforeNrd: uint8, cyclesBeforeNcsRead: uint8)
      modifies hw`setup
      ensures hw.setup == old(hw.setup)[cs.Value() :=
        SetupReg(cyclesBeforeNwe, cyclesBeforeNcsWrite, cyclesBeforeNrd, cyclesBeforeNcsRead)]
    {
      hw.SmcSetSetupTiming(cs.Value(),
        SetupReg(cyclesBeforeNwe, cyclesBeforeNcsWrite, cyclesBeforeNrd, cyclesBeforeNcsRead));
    }

    /** setPulseTiming: the four pulse widths, unchanged, into SMC_PULSE of register `cs`. */
    method SetPulseTiming(hw: Peripheral, cyclesNweWidth: uint8, cyclesNcsWidthWrite: uint8,
                          cyclesNrdWidth: uint8, cyclesNcsWidthRead: uint8)
      modifies hw`pulse
      ensures hw.pulse == old(hw.pulse)[cs.Value() :=
        PulseReg(cyclesNweWidth, cyclesNcsWidthWrite, cyclesNrdWidth, cyclesNcsWidthRead)]
    {
      hw.SmcSetPulseTiming(cs.Value(),
        PulseReg(cyclesNweWidth, cyclesNcsWidthWrite, cyclesNrdWidth, cyclesNcsWidthRead));
    }

    /** setCycleTiming: the two cycle totals, unchanged, into SMC_CYCLE of register `cs`. */
    method SetCycleTiming(hw: Peripheral, cyclesWriteTotal: uint8, cyclesReadTotal: uint8)
      modifies hw`cycle
      ensures hw.cycle == old(hw.cycle)[cs.Value() := CycleReg(cyclesWriteTotal, cyclesReadTotal)]
    {
      hw.SmcSetCycleTiming(cs.Value(), CycleReg(cyclesWriteTotal, cyclesReadTotal));
    }

    /** setMode: the chosen read and write controls with an 8-bit bus, into SMC_MODE of register `cs`. */
    method SetMode(hw: Peripheral, readMode: ReadMode, writeMode: WriteMode)
      modifies hw`mode
      ensures hw.mode == old(hw.mode)[cs.Value() := SelectedMode(readMode, writeMode)]
    {
      hw.SmcSetMode(cs.Value(), ModeReg(readMode, writeMode, BusWidth8));
    }

    /** write: one store of `data` at the base address plus the low 24 bits of `offset`. */
    method Write(hw: Peripheral, offset: uint32, data: uint8)
      modifies hw`bus
      ensures hw.bus == old(hw.bus) + [WriteCycle(BusAddress(addr, offset), data)]
    {
      hw.Store((addr + offset % 0x100_0000) % 0x1_0000_0000, data);
    }

    /** read: one load at the base address plus the low 24 bits of `offset`. */
    method Read(hw: Peripheral, offset: uint32) returns (data: uint8)
      modifies hw`bus
      ensures hw.bus == old(hw.bus) + [ReadCycle(BusAddress(addr, offset))]
      ensures data == hw.device(old(hw.bus), BusAddress(addr, offset))
    {
      data := hw.Load((addr + offset % 0x100_0000) % 0x1_0000_0000);
    }
  }
}
