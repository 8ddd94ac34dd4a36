# ArduinoDueParallel: a Dafny model of ParallelClass

ParallelClass turns the SAM3X Static Memory Controller (SMC) of the Arduino
Due into a byte-wide parallel bus. `begin` routes the data, address, strobe
and chip-select pins to the SMC. It records the base address of the chosen
chip select's 16 MiB window and programs the mode register. Four setters
write timing and mode values into the SMC registers of the active chip
select. `read` and `write` perform one byte access at the base address plus
the low 24 bits of an offset. `getAddress` recomputes the base address.

The model has four modules:

- `ParallelTypes` (parallel_types.dfy) holds Parallel.h's enumerations.
  `ChipSelect` has the four named chip selects, with their C values 0, 1, 3
  and 4. `ReadMode` and `WriteMode` are the two latch-control choices.
  `BusWidth` is the requested width. `uint8` and `uint32` are the C integer
  types.
- `Hardware` (hardware.dfy) is an abstract record of the peripherals that the
  vendor calls change. `Peripheral` is a class with these fields:
  - the log of `PIO_Configure` calls, in order;
  - the SMC clock gate;
  - one map per SMC register group (mode, setup, pulse, cycle), keyed by the
    register index passed to `smc_set_*`;
  - the log of bus cycles.

  Each vendor call is a method that changes only its own field.
- `Parallel` (parallel.dfy) holds the lengths of Parallel.cpp's pin tables,
  the `chipSelectAddresses` table and the class `ParallelClass` with its two
  fields `cs` and `addr`. It also holds the functions that say what `begin`
  and the accessors do:
  - `BeginPins`: the exact sequence of pins `begin` configures;
  - `BaseAddress`: the window base address;
  - `BusAddress`: `_addr + (offset & 0x00FFFFFF)` with 32-bit wrap-around.

  `Begin` runs the same steps as the source and is proved to
  append exactly `BeginPins(...)` to the pin log. Its two GPIO loops live in
  `ConfigurePrefix`, and its GPIO part lives in `ConfigureBusPins`. These
  are the same calls in the same order, split only so that each proof stays
  small.
- `ParallelProperties` (parallel_properties.dfy) holds the lemmas:
  - which pins `begin` routes, stated against an independent description
    (`Routes`), in both directions;
  - that the address pins come in increasing index order, right after the
    data pins;
  - that no pin is configured twice and every table access is in bounds;
  - that a request above 23 address lines is the same as 23;
  - the base-address formula and the 24-bit window;
  - that offsets alias exactly when their low 24 bits agree;
  - that different channels have disjoint windows;
  - that `begin` is idempotent.

Points where the model follows the code:

- The address-line count is clamped to the length of the `AddressPins`
  table, which is 23. It is not clamped to the 6 lines that the comments
  call usable. So `begin(…, cs = 1, numAddressLines = 8, …)` configures 8
  address pins (`ChannelOneScenario`).
- With `PARALLEL_CS_NONE`, the raw value 4 is passed as the SMC register
  index to `smc_set_mode` and to every timing setter. The window used is
  channel 0's, at 0x60000000. So the accesses land in channel 0's window,
  while the mode and timings go to register index 4
  (`NoneProgramsAnotherRegister`).
- `begin` ignores the requested width when it programs the mode: the data
  bus width is always 8 bits. The width only decides whether 8 or 16 data
  pins are routed.
- `begin`'s mode word `SMC_MODE_READ_MODE | SMC_MODE_WRITE_MODE |
  SMC_MODE_DBW_BIT_8` is modelled as NRD-controlled read, NWE-controlled
  write and an 8-bit bus. Those are the header's default choices
  (Parallel.h:55, 61).
- The `begin` definition with a width parameter (Parallel.cpp:120) is
  modelled, not the header's declaration without one.
- `offset & 0x00FFFFFF` on a 32-bit unsigned value is written
  `offset % 0x100_0000`, which is the same number. The sum with `_addr` is
  taken modulo 2^32.
- The inline constructor sets nothing. Before `begin`, `cs` and `addr`
  hold unspecified values, and `Valid()` (that is, `addr ==
  BaseAddress(cs)`) is guaranteed only after `begin`.

## Model

| member | source | states |
|---|---|---|
| ParallelTypes.ChipSelect.Value | Parallel.h:43-50 | the named chip selects have the values 0, 1, 3 and 4, and only PARALLEL_CS_NONE has value 4 |
| ParallelTypes.ChipSelectOf | Parallel.h:43-50 | a value names a chip select exactly when it is 0, 1, 3 or 4, and the chip select found has that value |
| ParallelProperties.ChipSelectRoundTrip | Parallel.h:43-50 | every chip select is found again from its value, and no two chip selects share a value |
| ParallelProperties.NoneAboveChannels | Parallel.h:43-50 | value 2 names no chip select; `_cs < PARALLEL_CS_NONE` holds exactly for the three real channels, and their values index both chip-select tables |
| Parallel.BaseAddress | Parallel.cpp:112-118 | a real channel's base address is 0x60000000 + cs * 0x01000000; with no chip select it is 0x60000000 |
| ParallelProperties.ChipSelectAddressesFormula | Parallel.cpp:112-118 | every entry i of chipSelectAddresses is 0x60000000 + i * 0x01000000 |
| ParallelProperties.NoneUsesChannelZeroWindow | Parallel.cpp:191-196 | with no chip select the base address is channel 0's table entry, and it is non-zero |
| ParallelProperties.NoneProgramsAnotherRegister | Parallel.cpp:181-217 | after begin with no chip select and setAddressSetupTiming, getAddress is 0x60000000 and accesses go to channel 0's window, while begin's mode and the setup timings sit in SMC register index 4 and register index 0's mode and setup entries are as before |
| Parallel.ClampAddressLines | Parallel.cpp:151-154 | the address-line count becomes at most 23 and never exceeds the request; a request of 23 or less is kept as it is, and a larger one becomes exactly 23 |
| Parallel.DataLineCount | Parallel.cpp:133-140 | begin configures 16 data pins exactly when the width is PARALLEL_BUS_WIDTH_16, and 8 otherwise |
| ParallelTypes.ChipSelect.IsChannel | Parallel.cpp:181 | the test `_cs < PARALLEL_CS_NONE` holds exactly for the three real chip selects |
| Parallel.Prefix | Parallel.cpp:142-162 | the first n entries of a table, in index order: the sequence the data and address loops walk |
| Parallel.ConfigurePrefix | Parallel.cpp:142-162 | the GPIO loop appends exactly the first n entries of its table to the PIO_Configure log, in index order |
| Parallel.ConfigureBusPins | Parallel.cpp:131-178 | the GPIO part of begin appends the data pins, the clamped address pins and the enabled strobes to the log, in that order |
| Parallel.ParallelClass.Begin | Parallel.cpp:120-205 | begin stores cs and the chip select's base address, so Valid holds; it appends exactly BeginPins(...) to the log, turns on the SMC clock and sets only register index cs's mode, to an 8-bit bus |
| Parallel.SelectedMode | Parallel.cpp:240-245 | setMode's mode word carries the chosen read and write controls and always an 8-bit data bus width |
| Parallel.BeginMode | Parallel.cpp:202-204 | begin's mode word is the one setMode builds for NRD-controlled read and NWE-controlled write |
| ParallelProperties.ModesAreEightBit | Parallel.cpp:198-204 | begin's mode equals setMode's with the default NRD and NWE controls, and both select an 8-bit data bus |
| Parallel.ParallelClass.GetAddress | Parallel.cpp:257-266 | getAddress returns 0x60000000 + cs * 0x01000000 for a real channel and 0x60000000 otherwise, and after begin it equals addr |
| Parallel.ParallelClass.SetAddressSetupTiming | Parallel.cpp:207-217 | the four setup counts are stored unchanged in the setup register of index cs; no other register, index or field of the object changes |
| Parallel.ParallelClass.SetPulseTiming | Parallel.cpp:219-229 | the four pulse widths are stored unchanged in the pulse register of index cs; nothing else changes |
| Parallel.ParallelClass.SetCycleTiming | Parallel.cpp:231-237 | the two cycle totals are stored unchanged in the cycle register of index cs; nothing else changes |
| Parallel.ParallelClass.SetMode | Parallel.cpp:239-245 | the chosen controls and an 8-bit width are stored in the mode register of index cs; nothing else changes |
| Parallel.ParallelClass.Write | Parallel.cpp:247-250 | write makes exactly one write cycle, at BusAddress(addr, offset), carrying the byte |
| Parallel.ParallelClass.Read | Parallel.cpp:252-255 | read makes exactly one read cycle at BusAddress(addr, offset) and returns the byte the device drives there, given the bus cycles before it |
| Parallel.BusAddress | Parallel.cpp:247-255 | the address read and write access agrees with base + offset in its low 24 bits, and for a base whose 16 MiB window fits below 2^32 it lies inside that window |
| Parallel.Low24 | Parallel.cpp:249 | the masked offset is below 2^24 and differs from the offset by a multiple of 2^24 |
| ParallelProperties.BusAddressInWindow | Parallel.cpp:249 | for a base whose window fits below 2^32, the sum does not wrap and lies in [base, base + 2^24) |
| ParallelProperties.ChannelAccessInWindow | Parallel.cpp:247-255 | for every chip select and offset, the access lies in the window of that chip select's base address, without overflow |
| ParallelProperties.BusAddressAliasing | Parallel.cpp:254 | two offsets reach the same address if and only if their low 24 bits agree |
| ParallelProperties.HighBitsIgnored | Parallel.cpp:249 | adding any multiple of 2^24 to an offset does not move the access |
| ParallelProperties.ChannelWindowsDisjoint | Parallel.cpp:112-118 | accesses through two different real channels never reach the same address |
| ParallelProperties.BeginPinsExactly | Parallel.cpp:133-190 | begin configures a pin if and only if it is a data pin below 8 (or 16 for a 16-bit width), an address pin below both the request and 23, a strobe whose flag is non-zero, or the chip select's own line for a real channel |
| ParallelProperties.BeginPinsInTables | Parallel.cpp:142-190 | every pin begin configures is an existing entry of its table, and NCS2 is never configured |
| ParallelProperties.BeginPinAt | Parallel.cpp:142-190 | position q of begin's calls holds data pin q, then address pin q - 8 (or q - 16), then the strobes and the chip-select line |
| ParallelProperties.BeginAddressOrder | Parallel.cpp:156-162 | address pin k is configured right after the data pins, at position DataLineCount + k |
| ParallelProperties.BeginAddressIncreasing | Parallel.cpp:156-162 | of any two configured address pins, the one configured first has the lower index |
| ParallelProperties.BeginPinsDistinct | Parallel.cpp:142-190 | begin configures no pin twice |
| ParallelProperties.BeginClampSaturates | Parallel.cpp:151-162 | a request of 23 address lines or more configures exactly what a request of 23 does |
| ParallelProperties.BeginPinsIdempotent | Parallel.cpp:142-190 | configuring begin's pins a second time adds no routed pin |
| ParallelProperties.ChannelOneScenario | Parallel.cpp:151-190 | begin with chip select 1, 8 address lines and both strobes configures address pins 0..7 and no pin 8, both strobes and NCS1, and uses base 0x61000000 |
| ParallelProperties.NoChipSelectScenario | Parallel.cpp:191-196 | begin with no chip select, no address lines and no strobes configures only data pins |
| ParallelProperties.BeginTwice | Parallel.cpp:120-205 | two calls of begin with the same arguments leave the object, the routed pins, the clock and the mode registers as one call does |
| Hardware.Peripheral.PioConfigure | Parallel.cpp:144-147 | PIO_Configure appends its pin to the configuration log and changes nothing else |
| Hardware.Peripheral.EnableSmcClock | Parallel.cpp:199 | pmc_enable_periph_clk(ID_SMC) turns on the SMC clock and changes nothing else |
| Hardware.Peripheral.SmcSetMode | Parallel.cpp:202-204 | smc_set_mode replaces the mode register of one index |
| Hardware.Peripheral.SmcSetSetupTiming | Parallel.cpp:213-216 | smc_set_setup_timing replaces the setup register of one index |
| Hardware.Peripheral.SmcSetPulseTiming | Parallel.cpp:225-228 | smc_set_pulse_timing replaces the pulse register of one index |
| Hardware.Peripheral.SmcSetCycleTiming | Parallel.cpp:235-236 | smc_set_cycle_timing replaces the cycle register of one index |
| Hardware.Peripheral.Store | Parallel.cpp:249 | a volatile byte store is one write cycle, appended to the bus log in program order |
| Hardware.Peripheral.Load | Parallel.cpp:254 | a volatile byte load is one read cycle, appended to the bus log in program order, and yields the device's byte for that address and the earlier bus cycles |

## Left out

- The bit positions of the `SMC_SETUP_*`, `SMC_PULSE_*`, `SMC_CYCLE_*` and `SMC_MODE_*` macros, and any truncation they make to narrower register fields. They are defined in smc.h, which is not part of this model. Register fields are kept as separate `uint8` values, so the round trip through the packed register words is not modelled.
- The vendor calls `PIO_Configure`, `pmc_enable_periph_clk` and `smc_set_*` do more on real hardware than the model's record shows. The model only records which pin was configured, that the clock is on, and which register value was written at which index.
- The electrical attributes of each `PinDescription` (port, mask, peripheral function, pull-up, ADC, PWM, timer). A pin is named by its table and index.
- Volatile semantics and `__attribute__((optimize("O0")))`. Each access is one event in an ordered bus log. Compiler and CPU memory ordering is not modelled further.
- The byte a read returns comes from external hardware. The peripheral record carries it as `device`, a function of the address and of every earlier bus cycle. So two reads of one offset may return different bytes, and a write in between may change what a read returns. Timing-dependent or absent-device behaviour is not modelled (only the bus order counts).
- The global instance `Parallel`. The model uses a caller-owned object.
- The header's `begin` declaration without a width parameter, and the missing declaration of `getAddress`. The model follows the definitions.
- Chip-select values outside the four enumerators, which C allows by casting. The model's `ChipSelect` has only the four enumerators.
- Parallel.h and Parallel.cpp do not declare `ParallelBusWidth_t`. The model gives it two values, and only the test against `PARALLEL_BUS_WIDTH_16` is modelled.
- The peripheral's reset register values. An index missing from a register map means "still at its reset value".
