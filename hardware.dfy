/**
 * An abstract record of the SAM3X peripherals that ParallelClass drives:
 * the PIO pin multiplexers (PIO_Configure), the SMC clock gate
 * (pmc_enable_periph_clk(ID_SMC)), the four SMC register groups per
 * register index (smc_set_mode, smc_set_setup_timing, smc_set_pulse_timing,
 * smc_set_cycle_timing) and the bus cycles that loads and stores in the
 * memory-mapped window produce. Register fields are kept as separate values;
 * their bit positions belong to smc.h, which is not part of this model.
 */
module Hardware {
  import opened ParallelTypes

  /** One entry of the PinDescription tables of Parallel.cpp, named by table and index. */
  datatype Pin =
    | Data(index: nat)            // DataPins[index]
    | Address(index: nat)         // AddressPins[index]
    | ReadStrobe                  // ReadPin (NRD)
    | WriteStrobe                 // WritePin (NWE)
    | ChipSelectLine(index: nat)  // ChipSelectPins[index]

  /** SMC_MODE of one register index: read mode, write mode, data bus width. */
  datatype ModeReg = ModeReg(readMode: ReadMode, writeMode: WriteMode, dataBusWidth: BusWidth)

  /** SMC_SETUP: cycles before NWE, before NCS on write, before NRD, before NCS on read. */
  datatype SetupReg = SetupReg(nweSetup: uint8, ncsWrSetup: uint8, nrdSetup: uint8, ncsRdSetup: uint8)

  /** SMC_PULSE: widths of NWE, of NCS on write, of NRD, of NCS on read. */
  datatype PulseReg = PulseReg(nwePulse: uint8, ncsWrPulse: uint8, nrdPulse: uint8, ncsRdPulse: uint8)

  /** SMC_CYCLE: total write cycle and total read cycle. */
  datatype CycleReg = CycleReg(nweCycle: uint8, nrdCycle: uint8)

  /** One bus cycle, caused by one volatile load or store in the SMC window. */
  datatype BusCycle = ReadCycle(address: uint32) | WriteCycle(address: uint32, data: uint8)

  /** The distinct pins of a sequence of PIO_Configure calls. */
  function PinSet(pins: seq<Pin>): set<Pin>
  {
    set p | p in pins
  }

  class Peripheral {
    /** Every PIO_Configure call so far, in program order. */
    var pinLog: seq<Pin>
    var smcClock: bool
    var mode: map<nat, ModeReg>
    var setup: map<nat, SetupReg>
    var pulse: map<nat, PulseReg>
    var cycle: map<nat, CycleReg>
    /** Every bus cycle so far, in program order. */
    var bus: seq<BusCycle>
    /**
     * The byte the attached device drives onto the data bus for a read at an
     * address, given every bus cycle before it: a device register may answer
     * differently after earlier reads and writes.
     */
    const device: (seq<BusCycle>, uint32) -> uint8

    /** The peripherals after reset: nothing routed, clock off, registers at reset values. */
    constructor (device: (seq<BusCycle>, uint32) -> uint8)
      ensures pinLog == [] && !smcClock && bus == []
      ensures mode == map[] && setup == map[] && pulse == map[] && cycle == map[]
      ensures this.device == device
    {
      pinLog, smcClock, bus := [], false, [];
      mode, setup, pulse, cycle := map[], map[], map[], map[];
      this.device := device;
    }

    /** The pins routed to the SMC: configuring a pin again changes nothing. */
    function Configured(): set<Pin>
      reads this`pinLog
    {
      PinSet(pinLog)
    }

    /** PIO_Configure with the pin's port, type, mask and attributes. */
    method PioConfigure(p: Pin)
      modifies this`pinLog
      ensures pinLog == old(pinLog) + [p]
    {
      pinLog := pinLog + [p];
    }

    /** pmc_enable_periph_clk(ID_SMC). */
    method EnableSmcClock()
      modifies this`smcClock
      ensures smcClock
    {
      smcClock := true;
    }

    /** smc_set_mode(SMC, index, m). */
    method SmcSetMode(index: nat, m: ModeReg)
      modifies this`mode
      ensures mode == old(mode)[index := m]
    {
      mode := mode[index := m];
    }

    /** smc_set_setup_timing(SMC, index, s). */
    method SmcSetSetupTiming(index: nat, s: SetupReg)
      modifies this`setup
      ensures setup == old(setup)[index := s]
    {
      setup := setup[index := s];
    }

    /** smc_set_pulse_timing(SMC, index, p). */
    method SmcSetPulseTiming(index: nat, p: PulseReg)
      modifies this`pulse
      ensures pulse == old(pulse)[index := p]
    {
      pulse := pulse[index := p];
    }

    /** smc_set_cycle_timing(SMC, index, c). */
    method SmcSetCycleTiming(index: nat, c: CycleReg)
      modifies this`cycle
      ensures cycle == old(cycle)[index := c]
    {
      cycle := cycle[index := c];
    }

    /** A volatile byte load at `address`: one read cycle on the bus, answered by the device. */
    method Load(address: uint32) returns (data: uint8)
      modifies this`bus
      ensures bus == old(bus) + [ReadCycle(address)]
      ensures data == device(old(bus), address)
    {
      data := device(bus, address);
      bus := bus + [ReadCycle(address)];
    }

    /** A volatile byte store at `address`: one write cycle on the bus. */
    method Store(address: uint32, data: uint8)
      modifies this`bus
      ensures bus == old(bus) + [WriteCycle(address, data)]
    {
      bus := bus + [WriteCycle(address, data)];
    }
  }
}
