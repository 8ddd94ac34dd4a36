/**
 * The declarations of Parallel.h: the chip-select, read-mode and write-mode
 * enumerations, the requested bus width, and the C integer widths the
 * interface uses.
 */
module ParallelTypes {

  /** C `uint8_t`. */
  type uint8 = x: int | 0 <= x < 0x100

  /** C `uint32_t`. */
  type uint32 = x: int | 0 <= x < 0x1_0000_0000

  datatype Option<T> = None | Some(value: T)

  /**
   * ParallelChipSelect_t. NCS2 is not wired on the board, so value 2 has no
   * enumerator; PARALLEL_CS_NONE follows PARALLEL_CS_3 and so has value 4.
   */
  datatype ChipSelect = Cs0 | Cs1 | Cs3 | CsNone {

    /**
     * The enumerator's integer value. The code passes it unchanged to the
     * smc_set_* calls as the SMC register index, CsNone included.
     */
    function Value(): (v: nat)
      ensures v == 0 || v == 1 || v == 3 || v == 4
      ensures v == 4 <==> this == CsNone
    {
      match this
      case Cs0 => 0
      case Cs1 => 1
      case Cs3 => 3
      case CsNone => 4
    }

    /** The test `_cs < PARALLEL_CS_NONE` that the code uses for "a real channel". */
    predicate IsChannel()
      ensures IsChannel() <==> this != CsNone
    {
      Value() < CsNone.Value()
    }
  }

  /** The enumerator, if any, whose value is `v`. */
  function ChipSelectOf(v: int): (r: Option<ChipSelect>)
    ensures r.Some? <==> v == 0 || v == 1 || v == 3 || v == 4
    ensures r.Some? ==> r.value.Value() == v
  {
    if v == 0 then Some(Cs0)
    else if v == 1 then Some(Cs1)
    else if v == 3 then Some(Cs3)
    else if v == 4 then Some(CsNone)
    else None
  }

  /** ReadModeFlags_t: data is latched under control of NCS or of NRD (the default). */
  datatype ReadMode = ReadNcsCtrl | ReadNrdCtrl

  /** WriteModeFlags_t: data is driven under control of NCS or of NWE (the default). */
  datatype WriteMode = WriteNcsCtrl | WriteNweCtrl

  /**
   * ParallelBusWidth_t, used by the definition of `begin`. Its declaration is
   * in neither Parallel.h nor Parallel.cpp; the code only tests it against
   * PARALLEL_BUS_WIDTH_16. The same two values describe the data bus width
   * field of the SMC mode register.
   */
  datatype BusWidth = BusWidth8 | BusWidth16
}
