/**
 * Register map and enumerations of the FDC1004Q capacitance-to-digital
 * converter, as the driver declares them (FDC1004Q_Defs.h).
 *
 * Register addresses are `bv8`, the width of the `register_address`
 * argument of the I2C transfers. Enumerations become datatypes; each has a
 * function giving the integer the C compiler assigns to its enumerators,
 * because the driver does arithmetic and comparisons on those integers.
 * A parameter of enumeration type is an `EnumValue`, since C lets it hold
 * integers that name no enumerator.
 */
module FdcDefs {

  // ------------------------------------------------------------------
  // Register map
  // ------------------------------------------------------------------

  const MEAS1_MSB: bv8 := 0x00
  const MEAS1_LSB: bv8 := 0x01
  const MEAS2_MSB: bv8 := 0x02
  const MEAS2_LSB: bv8 := 0x03
  const MEAS3_MSB: bv8 := 0x04
  const MEAS3_LSB: bv8 := 0x05
  const MEAS4_MSB: bv8 := 0x06
  const MEAS4_LSB: bv8 := 0x07
  const CONF_MEAS1: bv8 := 0x08
  const CONF_MEAS2: bv8 := 0x09
  const CONF_MEAS3: bv8 := 0x0A
  const CONF_MEAS4: bv8 := 0x0B
  const FDC_CONF: bv8 := 0x0C
  const OFFSET_CAL_CIN1: bv8 := 0x0D
  const OFFSET_CAL_CIN2: bv8 := 0x0E
  const OFFSET_CAL_CIN3: bv8 := 0x0F
  const OFFSET_CAL_CIN4: bv8 := 0x10
  const GAIN_CAL_CIN1: bv8 := 0x11
  const GAIN_CAL_CIN2: bv8 := 0x12
  const GAIN_CAL_CIN3: bv8 := 0x13
  const GAIN_CAL_CIN4: bv8 := 0x14
  const MANUFACTURER_ID: bv8 := 0xFE
  const DEVICE_ID: bv8 := 0xFF

  // ------------------------------------------------------------------
  // Enumerations
  // ------------------------------------------------------------------

  /**
   * The integer held by a parameter of enumeration type. C does not confine
   * it to the declared enumerators. GCC for bare-metal ARM, the PSoC
   * toolchain, makes enumerations short by default, so each enumeration
   * here, whose enumerators lie in 0..5, has the type `unsigned char`.
   */
  type EnumValue = bv8

  /** FDC_Error: the result of every driver operation. */
  datatype FdcError = Ok | CommErr | DevNotFound | ConfError

  /** The enumerator values of FDC_Error. */
  function ErrorCode(e: FdcError): (n: nat)
    ensures n <= 3
    ensures n == 0 <==> e == Ok
  {
    match e
    case Ok => 0
    case CommErr => 1
    case DevNotFound => 2
    case ConfError => 3
  }

  /** FDC_SampleRate: 100, 200 or 400 samples per second. */
  datatype SampleRate = Rate100Hz | Rate200Hz | Rate400Hz

  /** The enumerator values of FDC_SampleRate (the first is declared `= 1`). */
  function RateCode(r: SampleRate): (n: bv8)
    ensures 1 <= n <= 3
  {
    match r
    case Rate100Hz => 1
    case Rate200Hz => 2
    case Rate400Hz => 3
  }

  /** Reads an integer back as an FDC_SampleRate; 0 and anything above 3 name no rate. */
  function RateFromCode(n: bv8): (r: Option<SampleRate>)
    ensures r.Some? <==> 1 <= n <= 3
  {
    if n == 1 then Some(Rate100Hz)
    else if n == 2 then Some(Rate200Hz)
    else if n == 3 then Some(Rate400Hz)
    else None
  }

  lemma RateCodeRoundTrip(r: SampleRate, n: bv8)
    ensures RateFromCode(RateCode(r)) == Some(r)
    ensures RateFromCode(n).Some? ==> RateCode(RateFromCode(n).value) == n
  {
  }

  /** FDC_Channel: the four measurement channels, FDC_CH_1 = 0 ... FDC_CH_4 = 3. */
  type Channel = c: nat | c < 4

  /** FDC_MeasInput: what a channel's positive or negative terminal is connected to. */
  datatype MeasInput = In1 | In2 | In3 | In4 | Capdac | Disabled

  /** The enumerator values of FDC_MeasInput: IN_1..IN_4 = 0..3, CAPDAC = 4, DISABLED = 5. */
  function InputCode(i: MeasInput): (n: EnumValue)
    ensures n <= 5
    ensures n <= 3 <==> i !in {Capdac, Disabled}
  {
    match i
    case In1 => 0
    case In2 => 1
    case In3 => 2
    case In4 => 3
    case Capdac => 4
    case Disabled => 5
  }

  /** Distinct enumerators have distinct values, so comparing codes compares inputs. */
  lemma InputCodeInjective(a: MeasInput, b: MeasInput)
    ensures InputCode(a) == InputCode(b) <==> a == b
  {
  }

  /** FDC_MeasDone: FDC_DONE = 0, FDC_NOT_DONE = 1. */
  datatype MeasDone = Done | NotDone

  function DoneCode(d: MeasDone): (n: bv8)
    ensures n == 0 <==> d == Done
    ensures n <= 1
  {
    match d
    case Done => 0
    case NotDone => 1
  }

  datatype Option<T> = None | Some(value: T)

  // ------------------------------------------------------------------
  // Per-channel register addresses, computed the way the driver does
  // ------------------------------------------------------------------

  /** `FDC1004Q_MEAS1_MSB + (2*channel)` */
  function MeasMsbAddress(ch: Channel): (a: bv8)
    ensures a == [MEAS1_MSB, MEAS2_MSB, MEAS3_MSB, MEAS4_MSB][ch]
  {
    MEAS1_MSB + 2 * (ch as bv8)
  }

  /** `FDC1004Q_MEAS1_LSB + (2*channel)` */
  function MeasLsbAddress(ch: Channel): (a: bv8)
    ensures a == [MEAS1_LSB, MEAS2_LSB, MEAS3_LSB, MEAS4_LSB][ch]
  {
    MEAS1_LSB + 2 * (ch as bv8)
  }

  /** `FDC1004Q_CONF_MEAS1 + channel` */
  function ConfMeasAddress(ch: Channel): (a: bv8)
    ensures a == [CONF_MEAS1, CONF_MEAS2, CONF_MEAS3, CONF_MEAS4][ch]
  {
    CONF_MEAS1 + ch as bv8
  }

  /** `FDC1004Q_OFFSET_CAL_CIN1 + channel` */
  function OffsetCalAddress(ch: Channel): (a: bv8)
    ensures a == [OFFSET_CAL_CIN1, OFFSET_CAL_CIN2, OFFSET_CAL_CIN3, OFFSET_CAL_CIN4][ch]
  {
    OFFSET_CAL_CIN1 + ch as bv8
  }

  /** `FDC1004Q_GAIN_CAL_CIN1 + channel` */
  function GainCalAddress(ch: Channel): (a: bv8)
    ensures a == [GAIN_CAL_CIN1, GAIN_CAL_CIN2, GAIN_CAL_CIN3, GAIN_CAL_CIN4][ch]
  {
    GAIN_CAL_CIN1 + ch as bv8
  }

  /**
   * The per-channel register families lie in 0x00-0x07, 0x08-0x0B,
   * 0x0D-0x10 and 0x11-0x14, ranges that are pairwise disjoint and hold
   * neither FDC_CONF (0x0C) nor the identification registers (0xFE, 0xFF);
   * within a family, distinct channels get distinct registers.
   */
  lemma ChannelRegistersDisjoint(a: Channel, b: Channel)
    ensures MeasMsbAddress(a) <= 0x07 && MeasLsbAddress(a) <= 0x07
    ensures 0x08 <= ConfMeasAddress(a) <= 0x0B
    ensures 0x0D <= OffsetCalAddress(a) <= 0x10
    ensures 0x11 <= GainCalAddress(a) <= 0x14
    ensures MeasMsbAddress(a) != MeasLsbAddress(b)
    ensures a != b ==> MeasMsbAddress(a) != MeasMsbAddress(b) && MeasLsbAddress(a) != MeasLsbAddress(b)
    ensures a != b ==> ConfMeasAddress(a) != ConfMeasAddress(b)
    ensures a != b ==> OffsetCalAddress(a) != OffsetCalAddress(b) && GainCalAddress(a) != GainCalAddress(b)
  {
  }
}
