/**
 * The FDC1004Q driver functions (FDC1004Q.c, `FDC_ReadManufacturerId` to
 * `FDC_IsDeviceConnected`) over an abstract model of the chip.
 *
 * The chip is its register file: for each register address, the two bytes
 * a two-byte read returns. Every I2C transfer the driver issues is
 * appended to the ghost `Trace`; its outcome (`I2C_NO_ERROR` or
 * `I2C_ERROR`) is an argument of the driver method, one per transfer, so
 * that every error path can be followed. A failed write leaves the
 * registers as they were. The register file is passive memory: it holds
 * what the driver last wrote, and the chip's own updates (reset, done
 * bits, new results, hardware-cleared initiate bits) are not modelled.
 *
 * C out-pointers become a `prior` argument, the value the pointee held
 * before the call, and an out-parameter, the value it holds after.
 */
module Fdc1004qDriver {
  import opened FdcDefs
  import opened FdcCodec

  /** `FDC_CAPDAC_FACTOR`: picofarads per CAPDAC step. */
  const CAPDAC_FACTOR: real := 3.125

  /** I2C_ErrorCode: the outcome of one bus transfer. */
  datatype I2cErrorCode = I2cNoError | I2cError

  /** I2C_Connection: what a probe of the device address reports. */
  datatype I2cConnection = I2cDevConnected | I2cDevUnconnected

  /** A bus transfer the driver issued, whatever its outcome. */
  datatype Transfer =
    | ReadTransfer(register: bv8)
    | WriteTransfer(register: bv8, data: Word)
    | ProbeTransfer

  /** The FDC1004Q as the driver sees it over the bus. */
  class Fdc1004q {
    /** The register file: what a two-byte read of each address returns. */
    var regs: seq<Word>
    /** Every transfer issued so far, oldest first. */
    ghost var Trace: seq<Transfer>

    /** There is a register at each of the 256 8-bit addresses. */
    ghost predicate Valid()
      reads this
    {
      |regs| == 256
    }

    constructor (initial: seq<Word>)
      requires |initial| == 256
      ensures Valid()
      ensures regs == initial && Trace == []
    {
      regs := initial;
      Trace := [];
    }

    // ------------------------------------------------------------------
    // Bus transfers (I2C_Interface.h)
    // ------------------------------------------------------------------

    /**
     * `I2C_Peripheral_ReadRegisterMulti(FDC1004Q_I2C_ADDR, reg, 2, temp)`:
     * on success the buffer holds the register; on failure its contents are
     * unspecified.
     */
    method ReadRegister(reg: bv8, outcome: I2cErrorCode) returns (error: I2cErrorCode, temp: Word)
      requires Valid()
      modifies this`Trace
      ensures Trace == old(Trace) + [ReadTransfer(reg)]
      ensures error == outcome
      ensures error == I2cNoError ==> temp == regs[reg as int]
    {
      Trace := Trace + [ReadTransfer(reg)];
      error := outcome;
      temp := if outcome == I2cNoError then regs[reg as int] else Word(0, 0);
    }

    /** `I2C_Peripheral_WriteRegisterMulti(FDC1004Q_I2C_ADDR, reg, 2, temp)`. */
    method WriteRegister(reg: bv8, temp: Word, outcome: I2cErrorCode) returns (error: I2cErrorCode)
      requires Valid()
      modifies this
      ensures Valid()
      ensures Trace == old(Trace) + [WriteTransfer(reg, temp)]
      ensures error == outcome
      ensures regs == if outcome == I2cNoError then old(regs)[reg as int := temp] else old(regs)
    {
      Trace := Trace + [WriteTransfer(reg, temp)];
      error := outcome;
      if outcome == I2cNoError {
        regs := regs[reg as int := temp];
      }
    }

    // ------------------------------------------------------------------
    // Identification
    // ------------------------------------------------------------------

    /** FDC_ReadManufacturerId */
    method ReadManufacturerId(prior: bv16, status: I2cErrorCode) returns (err: FdcError, regValue: bv16)
      requires Valid()
      modifies this`Trace
      ensures Trace == old(Trace) + [ReadTransfer(MANUFACTURER_ID)]
      ensures err == (if status == I2cNoError then Ok else CommErr)
      ensures regValue == if err == Ok then Join(regs[MANUFACTURER_ID as int]) else prior
    {
      err := CommErr;
      regValue := prior;
      var error, temp := ReadRegister(MANUFACTURER_ID, status);
      if error == I2cNoError {
        regValue := Join(temp);
        err := Ok;
      }
    }

    /** FDC_ReadDeviceId */
    method ReadDeviceId(prior: bv16, status: I2cErrorCode) returns (err: FdcError, regValue: bv16)
      requires Valid()
      modifies this`Trace
      ensures Trace == old(Trace) + [ReadTransfer(DEVICE_ID)]
      ensures err == (if status == I2cNoError then Ok else CommErr)
      ensures regValue == if err == Ok then Join(regs[DEVICE_ID as int]) else prior
    {
      err := CommErr;
      regValue := prior;
      var error, temp := ReadRegister(DEVICE_ID, status);
      if error == I2cNoError {
        regValue := Join(temp);
        err := Ok;
      }
    }

    // ------------------------------------------------------------------
    // FDC_CONF read-modify-write operations
    // ------------------------------------------------------------------

    /**
     * FDC_Reset, as written: the RESET bit number is applied to the high
     * byte, which truncation leaves unchanged, so FDC_CONF is written back
     * as it was read and no register changes.
     */
    method Reset(readStatus: I2cErrorCode, writeStatus: I2cErrorCode) returns (err: FdcError)
      requires Valid()
      modifies this
      ensures Valid()
      ensures err == Ok <==> readStatus == I2cNoError && writeStatus == I2cNoError
      ensures err != Ok ==> err == CommErr
      ensures readStatus != I2cNoError ==> Trace == old(Trace) + [ReadTransfer(FDC_CONF)]
      ensures readStatus == I2cNoError ==>
        Trace == old(Trace) + [ReadTransfer(FDC_CONF), WriteTransfer(FDC_CONF, old(regs)[FDC_CONF])]
      ensures regs == old(regs)
    {
      err := CommErr;
      var error, temp := ReadRegister(FDC_CONF, readStatus);
      if error == I2cNoError {
        temp := temp.(hi := ResetByteAsWritten(temp.hi));
        ConfBitsAsWrittenUnchanged(old(regs)[FDC_CONF].hi);
        assert temp == old(regs)[FDC_CONF];
        error := WriteRegister(FDC_CONF, temp, writeStatus);
        if error == I2cNoError {
          err := Ok;
        }
      }
    }

    /** FDC_Reset as its comment intends: RESET (register bit 15) set, every other bit kept. */
    method ResetCorrected(readStatus: I2cErrorCode, writeStatus: I2cErrorCode) returns (err: FdcError)
      requires Valid()
      modifies this
      ensures Valid()
      ensures err == Ok <==> readStatus == I2cNoError && writeStatus == I2cNoError
      ensures err != Ok ==> err == CommErr
      ensures readStatus != I2cNoError ==> Trace == old(Trace) + [ReadTransfer(FDC_CONF)] && regs == old(regs)
      ensures readStatus == I2cNoError ==> var conf := old(regs)[FDC_CONF];
        var written := Word(WithReset(conf.hi), conf.lo);
        Trace == old(Trace) + [ReadTransfer(FDC_CONF), WriteTransfer(FDC_CONF, written)]
        && regs == if err == Ok then old(regs)[FDC_CONF as int := written] else old(regs)
    {
      err := CommErr;
      var error, temp := ReadRegister(FDC_CONF, readStatus);
      if error == I2cNoError {
        temp := temp.(hi := WithReset(temp.hi));
        error := WriteRegister(FDC_CONF, temp, writeStatus);
        if error == I2cNoError {
          err := Ok;
        }
      }
    }

    /**
     * FDC_SetSampleRate: FDC_CONF is rewritten with its high byte passed
     * through `WithRate`. For an FDC_SampleRate enumerator only the RATE
     * field (bits 11:10) changes; the value is not range-checked, so any
     * other value also reaches the register.
     */
    method SetSampleRate(sampleRate: EnumValue, readStatus: I2cErrorCode, writeStatus: I2cErrorCode)
      returns (err: FdcError)
      requires Valid()
      modifies this
      ensures Valid()
      ensures err == Ok <==> readStatus == I2cNoError && writeStatus == I2cNoError
      ensures err != Ok ==> err == CommErr
      ensures readStatus != I2cNoError ==> Trace == old(Trace) + [ReadTransfer(FDC_CONF)] && regs == old(regs)
      ensures readStatus == I2cNoError ==> var conf := old(regs)[FDC_CONF];
        var written := Word(WithRate(conf.hi, sampleRate), conf.lo);
        Trace == old(Trace) + [ReadTransfer(FDC_CONF), WriteTransfer(FDC_CONF, written)]
        && regs == if err == Ok then old(regs)[FDC_CONF as int := written] else old(regs)
    {
      err := CommErr;
      var error, temp := ReadRegister(FDC_CONF, readStatus);
      if error == I2cNoError {
        temp := temp.(hi := WithRate(temp.hi, sampleRate));
        error := WriteRegister(FDC_CONF, temp, writeStatus);
        if error == I2cNoError {
          err := Ok;
        }
      }
    }

    /**
     * FDC_SetSampleRate with the range check it lacks: a value that names no
     * FDC_SampleRate is refused with the configuration error before any
     * transfer, as FDC_ConfigureMeasurement refuses a bad configuration.
     * An accepted value changes the RATE field of FDC_CONF and nothing else.
     */
    method SetSampleRateCorrected(sampleRate: EnumValue, readStatus: I2cErrorCode, writeStatus: I2cErrorCode)
      returns (err: FdcError)
      requires Valid()
      modifies this
      ensures Valid()
      ensures RateFromCode(sampleRate).None? ==> err == ConfError && Trace == old(Trace) && regs == old(regs)
      ensures RateFromCode(sampleRate).Some? ==>
        (err == Ok <==> readStatus == I2cNoError && writeStatus == I2cNoError) && (err != Ok ==> err == CommErr)
      ensures RateFromCode(sampleRate).Some? && readStatus != I2cNoError ==>
        Trace == old(Trace) + [ReadTransfer(FDC_CONF)] && regs == old(regs)
      ensures RateFromCode(sampleRate).Some? && readStatus == I2cNoError ==> var conf := old(regs)[FDC_CONF];
        var written := Word(WithRate(conf.hi, sampleRate), conf.lo);
        Trace == old(Trace) + [ReadTransfer(FDC_CONF), WriteTransfer(FDC_CONF, written)]
        && regs == (if err == Ok then old(regs)[FDC_CONF as int := written] else old(regs))
        && RateFromCode(RateField(written.hi)) == RateFromCode(sampleRate)
        && written.hi & !RATE_MASK == conf.hi & !RATE_MASK
    {
      if RateFromCode(sampleRate).None? {
        return ConfError;
      }
      RateRoundTrip(old(regs)[FDC_CONF].hi, RateFromCode(sampleRate).value);
      RateCodeRoundTrip(RateFromCode(sampleRate).value, sampleRate);
      err := CommErr;
      var error, temp := ReadRegister(FDC_CONF, readStatus);
      if error == I2cNoError {
        temp := temp.(hi := WithRate(temp.hi, sampleRate));
        error := WriteRegister(FDC_CONF, temp, writeStatus);
        if error == I2cNoError {
          err := Ok;
        }
      }
    }

    /**
     * FDC_ReadSampleRate: the RATE field as stored into the enum object,
     * 0 to 3 (0 names no FDC_SampleRate).
     */
    method ReadSampleRate(prior: EnumValue, status: I2cErrorCode) returns (err: FdcError, sampleRate: EnumValue)
      requires Valid()
      modifies this`Trace
      ensures Trace == old(Trace) + [ReadTransfer(FDC_CONF)]
      ensures err == (if status == I2cNoError then Ok else CommErr)
      ensures sampleRate == if err == Ok then RateField(regs[FDC_CONF as int].hi) else prior
    {
      err := CommErr;
      sampleRate := prior;
      var error, temp := ReadRegister(FDC_CONF, status);
      if error == I2cNoError {
        sampleRate := (temp.hi & 0x0C) >> 2;
        err := Ok;
      }
    }

    /** FDC_InitMeasurement: sets the channel's initiate bit, bit 7-channel of FDC_CONF. */
    method InitMeasurement(channel: Channel, readStatus: I2cErrorCode, writeStatus: I2cErrorCode)
      returns (err: FdcError)
      requires Valid()
      modifies this
      ensures Valid()
      ensures err == Ok <==> readStatus == I2cNoError && writeStatus == I2cNoError
      ensures err != Ok ==> err == CommErr
      ensures readStatus != I2cNoError ==> Trace == old(Trace) + [ReadTransfer(FDC_CONF)] && regs == old(regs)
      ensures readStatus == I2cNoError ==> var conf := old(regs)[FDC_CONF];
        var written := Word(conf.hi, WithInitiate(conf.lo, channel));
        Trace == old(Trace) + [ReadTransfer(FDC_CONF), WriteTransfer(FDC_CONF, written)]
        && regs == if err == Ok then old(regs)[FDC_CONF as int := written] else old(regs)
    {
      err := CommErr;
      var error, temp := ReadRegister(FDC_CONF, readStatus);
      if error == I2cNoError {
        temp := temp.(lo := WithInitiate(temp.lo, channel));
        error := WriteRegister(FDC_CONF, temp, writeStatus);
        if error == I2cNoError {
          err := Ok;
        }
      }
    }

    /** FDC_StopMeasurement: clears the channel's initiate bit. */
    method StopMeasurement(channel: Channel, readStatus: I2cErrorCode, writeStatus: I2cErrorCode)
      returns (err: FdcError)
      requires Valid()
      modifies this
      ensures Valid()
      ensures err == Ok <==> readStatus == I2cNoError && writeStatus == I2cNoError
      ensures err != Ok ==> err == CommErr
      ensures readStatus != I2cNoError ==> Trace == old(Trace) + [ReadTransfer(FDC_CONF)] && regs == old(regs)
      ensures readStatus == I2cNoError ==> var conf := old(regs)[FDC_CONF];
        var written := Word(conf.hi, WithoutInitiate(conf.lo, channel));
        Trace == old(Trace) + [ReadTransfer(FDC_CONF), WriteTransfer(FDC_CONF, written)]
        && regs == if err == Ok then old(regs)[FDC_CONF as int := written] else old(regs)
    {
      err := CommErr;
      var error, temp := ReadRegister(FDC_CONF, readStatus);
      if error == I2cNoError {
        temp := temp.(lo := WithoutInitiate(temp.lo, channel));
        error := WriteRegister(FDC_CONF, temp, writeStatus);
        if error == I2cNoError {
          err := Ok;
        }
      }
    }

    /**
     * FDC_IsMeasurementDone, as written: the value stored into the
     * FDC_MeasDone object is `temp[1] & (3-channel)`.
     */
    method IsMeasurementDone(channel: Channel, prior: EnumValue, status: I2cErrorCode) returns (err: FdcError, done: EnumValue)
      requires Valid()
      modifies this`Trace
      ensures Trace == old(Trace) + [ReadTransfer(FDC_CONF)]
      ensures err == (if status == I2cNoError then Ok else CommErr)
      ensures done == if err == Ok then DoneAsWritten(regs[FDC_CONF as int].lo, channel) else prior
    {
      err := CommErr;
      done := prior;
      var error, temp := ReadRegister(FDC_CONF, status);
      if error == I2cNoError {
        done := temp.lo & (3 - channel) as bv8;
        err := Ok;
      }
    }

    /** FDC_IsMeasurementDone as intended: FDC_DONE exactly when the channel's done bit is set. */
    method IsMeasurementDoneCorrected(channel: Channel, prior: MeasDone, status: I2cErrorCode)
      returns (err: FdcError, done: MeasDone)
      requires Valid()
      modifies this`Trace
      ensures Trace == old(Trace) + [ReadTransfer(FDC_CONF)]
      ensures err == (if status == I2cNoError then Ok else CommErr)
      ensures done == if err == Ok then MeasurementDone(regs[FDC_CONF as int].lo, channel) else prior
    {
      err := CommErr;
      done := prior;
      var error, temp := ReadRegister(FDC_CONF, status);
      if error == I2cNoError {
        done := MeasurementDone(temp.lo, channel);
        err := Ok;
      }
    }

    /**
     * FDC_EnableRepeatMeasurement, as written: bit number 8 applied to the
     * high byte is lost in the truncation, so FDC_CONF is written back as it
     * was read.
     */
    method EnableRepeatMeasurement(readStatus: I2cErrorCode, writeStatus: I2cErrorCode) returns (err: FdcError)
      requires Valid()
      modifies this
      ensures Valid()
      ensures err == Ok <==> readStatus == I2cNoError && writeStatus == I2cNoError
      ensures err != Ok ==> err == CommErr
      ensures readStatus != I2cNoError ==> Trace == old(Trace) + [ReadTransfer(FDC_CONF)]
      ensures readStatus == I2cNoError ==>
        Trace == old(Trace) + [ReadTransfer(FDC_CONF), WriteTransfer(FDC_CONF, old(regs)[FDC_CONF])]
      ensures regs == old(regs)
    {
      err := CommErr;
      var error, temp := ReadRegister(FDC_CONF, readStatus);
      if error == I2cNoError {
        temp := temp.(hi := RepeatOnByteAsWritten(temp.hi));
        ConfBitsAsWrittenUnchanged(old(regs)[FDC_CONF].hi);
        assert temp == old(regs)[FDC_CONF];
        error := WriteRegister(FDC_CONF, temp, writeStatus);
        if error == I2cNoError {
          err := Ok;
        }
      }
    }

    /** FDC_DisableRepeatMeasurement, as written: FDC_CONF is written back unchanged. */
    method DisableRepeatMeasurement(readStatus: I2cErrorCode, writeStatus: I2cErrorCode) returns (err: FdcError)
      requires Valid()
      modifies this
      ensures Valid()
      ensures err == Ok <==> readStatus == I2cNoError && writeStatus == I2cNoError
      ensures err != Ok ==> err == CommErr
      ensures readStatus != I2cNoError ==> Trace == old(Trace) + [ReadTransfer(FDC_CONF)]
      ensures readStatus == I2cNoError ==>
        Trace == old(Trace) + [ReadTransfer(FDC_CONF), WriteTransfer(FDC_CONF, old(regs)[FDC_CONF])]
      ensures regs == old(regs)
    {
      err := CommErr;
      var error, temp := ReadRegister(FDC_CONF, readStatus);
      if error == I2cNoError {
        temp := temp.(hi := RepeatOffByteAsWritten(temp.hi));
        ConfBitsAsWrittenUnchanged(old(regs)[FDC_CONF].hi);
        assert temp == old(regs)[FDC_CONF];
        error := WriteRegister(FDC_CONF, temp, writeStatus);
        if error == I2cNoError {
          err := Ok;
        }
      }
    }

    /** FDC_EnableRepeatMeasurement as intended: REPEAT (register bit 8) set, every other bit kept. */
    method EnableRepeatCorrected(readStatus: I2cErrorCode, writeStatus: I2cErrorCode) returns (err: FdcError)
      requires Valid()
      modifies this
      ensures Valid()
      ensures err == Ok <==> readStatus == I2cNoError && writeStatus == I2cNoError
      ensures err != Ok ==> err == CommErr
      ensures readStatus != I2cNoError ==> Trace == old(Trace) + [ReadTransfer(FDC_CONF)] && regs == old(regs)
      ensures readStatus == I2cNoError ==> var conf := old(regs)[FDC_CONF];
        var written := Word(WithRepeat(conf.hi), conf.lo);
        Trace == old(Trace) + [ReadTransfer(FDC_CONF), WriteTransfer(FDC_CONF, written)]
        && regs == if err == Ok then old(regs)[FDC_CONF as int := written] else old(regs)
    {
      err := CommErr;
      var error, temp := ReadRegister(FDC_CONF, readStatus);
      if error == I2cNoError {
        temp := temp.(hi := WithRepeat(temp.hi));
        error := WriteRegister(FDC_CONF, temp, writeStatus);
        if error == I2cNoError {
          err := Ok;
        }
      }
    }

    /** FDC_DisableRepeatMeasurement as intended: REPEAT cleared, every other bit kept. */
    method DisableRepeatCorrected(readStatus: I2cErrorCode, writeStatus: I2cErrorCode) returns (err: FdcError)
      requires Valid()
      modifies this
      ensures Valid()
      ensures err == Ok <==> readStatus == I2cNoError && writeStatus == I2cNoError
      ensures err != Ok ==> err == CommErr
      ensures readStatus != I2cNoError ==> Trace == old(Trace) + [ReadTransfer(FDC_CONF)] && regs == old(regs)
      ensures readStatus == I2cNoError ==> var conf := old(regs)[FDC_CONF];
        var written := Word(WithoutRepeat(conf.hi), conf.lo);
        Trace == old(Trace) + [ReadTransfer(FDC_CONF), WriteTransfer(FDC_CONF, written)]
        && regs == if err == Ok then old(regs)[FDC_CONF as int := written] else old(regs)
    {
      err := CommErr;
      var error, temp := ReadRegister(FDC_CONF, readStatus);
      if error == I2cNoError {
        temp := temp.(hi := WithoutRepeat(temp.hi));
        error := WriteRegister(FDC_CONF, temp, writeStatus);
        if error == I2cNoError {
          err := Ok;
        }
      }
    }

    // ------------------------------------------------------------------
    // Calibration registers
    // ------------------------------------------------------------------

    /**
     * FDC_ReadRawOffsetCalibration: the `int16_t` offset, as its pattern,
     * is the joined OFFSET_CAL_CINn buffer.
     */
    method ReadRawOffsetCalibration(channel: Channel, prior: bv16, status: I2cErrorCode)
      returns (err: FdcError, offset: bv16)
      requires Valid()
      modifies this`Trace
      ensures Trace == old(Trace) + [ReadTransfer(OffsetCalAddress(channel))]
      ensures err == (if status == I2cNoError then Ok else CommErr)
      ensures offset == if err == Ok then Join(regs[OffsetCalAddress(channel) as int]) else prior
      ensures err == Ok ==> Int16Value(offset) == Int16Of(regs[OffsetCalAddress(channel) as int])
    {
      err := CommErr;
      offset := prior;
      var error, temp := ReadRegister(OFFSET_CAL_CIN1 + channel as bv8, status);
      if error == I2cNoError {
        offset := Join(temp);
        err := Ok;
      }
    }

    /** FDC_SetRawOffsetCalibration: the offset's two bytes, high first, go to OFFSET_CAL_CINn. */
    method SetRawOffsetCalibration(channel: Channel, offset: bv16, status: I2cErrorCode) returns (err: FdcError)
      requires Valid()
      modifies this
      ensures Valid()
      ensures Trace == old(Trace) + [WriteTransfer(OffsetCalAddress(channel), Split(offset))]
      ensures err == (if status == I2cNoError then Ok else CommErr)
      ensures regs == if err == Ok then old(regs)[OffsetCalAddress(channel) := Split(offset)] else old(regs)
    {
      var temp := Split(offset);
      err := CommErr;
      var error := WriteRegister(OFFSET_CAL_CIN1 + channel as bv8, temp, status);
      if error == I2cNoError {
        err := Ok;
      }
    }

    /**
     * FDC_ReadRawGainCalibration, as written: the high byte goes to
     * `gain[0]` and the low byte to `gain[1]`, two 16-bit slots, so the
     * caller's `uint16_t` never receives the joined register value. The
     * pointer is documented as pointing to one variable; when the object
     * has a single slot, the store to `gain[1]` falls outside it and
     * `overrun` reports that (in C it is undefined behaviour).
     */
    method ReadRawGainCalibration(channel: Channel, gain: array<bv16>, status: I2cErrorCode)
      returns (err: FdcError, overrun: bool)
      requires Valid()
      requires gain.Length >= 1
      modifies this`Trace, gain
      ensures Trace == old(Trace) + [ReadTransfer(GainCalAddress(channel))]
      ensures err == (if status == I2cNoError then Ok else CommErr)
      ensures overrun <==> err == Ok && gain.Length == 1
      ensures err == Ok && gain.Length >= 2 ==> var w := regs[GainCalAddress(channel) as int];
        gain[..] == old(gain[..])[0 := GainSlotsAsWritten(w).0][1 := GainSlotsAsWritten(w).1]
      ensures err == Ok && gain.Length == 1 ==> gain[..] == [GainSlotsAsWritten(regs[GainCalAddress(channel) as int]).0]
      ensures err != Ok ==> gain[..] == old(gain[..])
    {
      err, overrun := CommErr, false;
      var error, temp := ReadRegister(GAIN_CAL_CIN1 + channel as bv8, status);
      if error == I2cNoError {
        gain[0] := temp.hi as bv16;
        if gain.Length >= 2 {
          gain[1] := temp.lo as bv16;
        } else {
          overrun := true;
        }
        err := Ok;
      }
    }

    /** FDC_ReadRawGainCalibration as intended: the joined GAIN_CAL_CINn value. */
    method ReadRawGainCorrected(channel: Channel, prior: bv16, status: I2cErrorCode)
      returns (err: FdcError, gain: bv16)
      requires Valid()
      modifies this`Trace
      ensures Trace == old(Trace) + [ReadTransfer(GainCalAddress(channel))]
      ensures err == (if status == I2cNoError then Ok else CommErr)
      ensures gain == if err == Ok then Join(regs[GainCalAddress(channel) as int]) else prior
    {
      err := CommErr;
      gain := prior;
      var error, temp := ReadRegister(GAIN_CAL_CIN1 + channel as bv8, status);
      if error == I2cNoError {
        gain := Join(temp);
        err := Ok;
      }
    }

    /** FDC_SetRawGainCalibration: the gain's two bytes, high first, go to GAIN_CAL_CINn. */
    method SetRawGainCalibration(channel: Channel, gain: bv16, status: I2cErrorCode) returns (err: FdcError)
      requires Valid()
      modifies this
      ensures Valid()
      ensures Trace == old(Trace) + [WriteTransfer(GainCalAddress(channel), Split(gain))]
      ensures err == (if status == I2cNoError then Ok else CommErr)
      ensures regs == if err == Ok then old(regs)[GainCalAddress(channel) := Split(gain)] else old(regs)
    {
      var temp := Split(gain);
      err := CommErr;
      var error := WriteRegister(GAIN_CAL_CIN1 + channel as bv8, temp, status);
      if error == I2cNoError {
        err := Ok;
      }
    }

    // ------------------------------------------------------------------
    // Measurement configuration and results
    // ------------------------------------------------------------------

    /**
     * FDC_ConfigureMeasurement: a rejected configuration returns the
     * configuration error without any transfer; otherwise CONF_MEASn is
     * rewritten with the three fields, bit 4 cleared and bits 3:0 kept.
     */
    method ConfigureMeasurement(measChannel: Channel, pos: EnumValue, neg: EnumValue, capdac: bv8,
                                readStatus: I2cErrorCode, writeStatus: I2cErrorCode)
      returns (err: FdcError)
      requires Valid()
      modifies this
      ensures Valid()
      ensures ConfigurationRejected(pos, neg, capdac) ==>
        err == ConfError && Trace == old(Trace) && regs == old(regs)
      ensures !ConfigurationRejected(pos, neg, capdac) ==>
        (err == Ok <==> readStatus == I2cNoError && writeStatus == I2cNoError)
        && (err != Ok ==> err == CommErr)
      ensures !ConfigurationRejected(pos, neg, capdac) && readStatus != I2cNoError ==>
        Trace == old(Trace) + [ReadTransfer(ConfMeasAddress(measChannel))] && regs == old(regs)
      ensures !ConfigurationRejected(pos, neg, capdac) && readStatus == I2cNoError ==>
        var addr := ConfMeasAddress(measChannel);
        var written := Split(ConfMeasWord(Join(old(regs)[addr]), pos, neg, capdac));
        Trace == old(Trace) + [ReadTransfer(addr), WriteTransfer(addr, written)]
        && regs == if err == Ok then old(regs)[addr as int := written] else old(regs)
    {
      if ConfigurationRejected(pos, neg, capdac) {
        return ConfError;
      }
      err := CommErr;
      var error, temp := ReadRegister(CONF_MEAS1 + measChannel as bv8, readStatus);
      if error == I2cNoError {
        temp := Split(ConfMeasWord(Join(temp), pos, neg, capdac));
        error := WriteRegister(CONF_MEAS1 + measChannel as bv8, temp, writeStatus);
        if error == I2cNoError {
          err := Ok;
        }
      }
    }

    /**
     * FDC_ConfigureMeasurement with the range check it lacks: the corrected
     * guard also refuses a negative value past FDC_DISABLED, so CHA and CHB
     * of the written word decode to `pos` and `neg`.
     */
    method ConfigureMeasurementCorrected(measChannel: Channel, pos: EnumValue, neg: EnumValue, capdac: bv8,
                                         readStatus: I2cErrorCode, writeStatus: I2cErrorCode)
      returns (err: FdcError)
      requires Valid()
      modifies this
      ensures Valid()
      ensures ConfigurationRejectedCorrected(pos, neg, capdac) ==>
        err == ConfError && Trace == old(Trace) && regs == old(regs)
      ensures !ConfigurationRejectedCorrected(pos, neg, capdac) ==>
        (err == Ok <==> readStatus == I2cNoError && writeStatus == I2cNoError)
        && (err != Ok ==> err == CommErr)
      ensures !ConfigurationRejectedCorrected(pos, neg, capdac) && readStatus != I2cNoError ==>
        Trace == old(Trace) + [ReadTransfer(ConfMeasAddress(measChannel))] && regs == old(regs)
      ensures !ConfigurationRejectedCorrected(pos, neg, capdac) && readStatus == I2cNoError ==>
        var addr := ConfMeasAddress(measChannel);
        var word := ConfMeasWord(Join(old(regs)[addr]), pos, neg, capdac);
        Trace == old(Trace) + [ReadTransfer(addr), WriteTransfer(addr, Split(word))]
        && regs == (if err == Ok then old(regs)[addr as int := Split(word)] else old(regs))
        && (word & CHA_MASK) >> 13 == pos as bv16 && (word & CHB_MASK) >> 10 == neg as bv16
    {
      if ConfigurationRejectedCorrected(pos, neg, capdac) {
        return ConfError;
      }
      ConfigurationCorrectedFields(Join(old(regs)[ConfMeasAddress(measChannel)]), pos, neg, capdac);
      err := CommErr;
      var error, temp := ReadRegister(CONF_MEAS1 + measChannel as bv8, readStatus);
      if error == I2cNoError {
        temp := Split(ConfMeasWord(Join(temp), pos, neg, capdac));
        error := WriteRegister(CONF_MEAS1 + measChannel as bv8, temp, writeStatus);
        if error == I2cNoError {
          err := Ok;
        }
      }
    }

    /**
     * FDC_ReadRawMeasurement: MEASn_MSB on top of MEASn_LSB. The MSB half
     * is stored before the LSB read, so a failed second read leaves it there.
     */
    method ReadRawMeasurement(channel: Channel, prior: bv32, msbStatus: I2cErrorCode, lsbStatus: I2cErrorCode)
      returns (err: FdcError, capacitance: bv32)
      requires Valid()
      modifies this`Trace
      ensures err == Ok <==> msbStatus == I2cNoError && lsbStatus == I2cNoError
      ensures err != Ok ==> err == CommErr
      ensures msbStatus != I2cNoError ==>
        Trace == old(Trace) + [ReadTransfer(MeasMsbAddress(channel))] && capacitance == prior
      ensures msbStatus == I2cNoError ==>
        Trace == old(Trace) + [ReadTransfer(MeasMsbAddress(channel)), ReadTransfer(MeasLsbAddress(channel))]
      ensures msbStatus == I2cNoError && lsbStatus != I2cNoError ==>
        capacitance == Join(regs[MeasMsbAddress(channel) as int]) as bv32 << 16
      ensures err == Ok ==>
        capacitance == RawMeasurement(regs[MeasMsbAddress(channel) as int], regs[MeasLsbAddress(channel) as int])
    {
      err := CommErr;
      capacitance := prior;
      var error, temp := ReadRegister(MEAS1_MSB + 2 * channel as bv8, msbStatus);
      if error == I2cNoError {
        capacitance := Join(temp) as bv32 << 16;
        error, temp := ReadRegister(MEAS1_LSB + 2 * channel as bv8, lsbStatus);
        if error == I2cNoError {
          capacitance := capacitance | Join(temp) as bv32;
          err := Ok;
        }
      }
    }

    /**
     * FDC_ReadMeasurement: the signed 24-bit result over 2^19, stored
     * before CONF_MEASn is read, then 3.125 pF per CAPDAC step added.
     */
    method ReadMeasurement(channel: Channel, prior: real,
                           msbStatus: I2cErrorCode, lsbStatus: I2cErrorCode, confStatus: I2cErrorCode)
      returns (err: FdcError, capacitance: real)
      requires Valid()
      modifies this`Trace
      ensures err == Ok <==> msbStatus == I2cNoError && lsbStatus == I2cNoError && confStatus == I2cNoError
      ensures err != Ok ==> err == CommErr
      ensures msbStatus != I2cNoError || lsbStatus != I2cNoError ==> capacitance == prior
      ensures msbStatus != I2cNoError ==> Trace == old(Trace) + [ReadTransfer(MeasMsbAddress(channel))]
      ensures msbStatus == I2cNoError && lsbStatus != I2cNoError ==>
        Trace == old(Trace) + [ReadTransfer(MeasMsbAddress(channel)), ReadTransfer(MeasLsbAddress(channel))]
      ensures msbStatus == I2cNoError && lsbStatus == I2cNoError ==>
        Trace == old(Trace) + [ReadTransfer(MeasMsbAddress(channel)), ReadTransfer(MeasLsbAddress(channel)),
                               ReadTransfer(ConfMeasAddress(channel))]
      ensures msbStatus == I2cNoError && lsbStatus == I2cNoError && confStatus != I2cNoError ==>
        capacitance == SignedMeasurement(RawMeasurement(regs[MeasMsbAddress(channel) as int], regs[MeasLsbAddress(channel) as int])) as real / 524288.0
      ensures err == Ok ==>
        capacitance == MeasurementPicofarads(RawMeasurement(regs[MeasMsbAddress(channel) as int], regs[MeasLsbAddress(channel) as int]),
                                             CapdacField(Join(regs[ConfMeasAddress(channel) as int])))
    {
      err := CommErr;
      capacitance := prior;
      var rawError, capRaw := ReadRawMeasurement(channel, 0, msbStatus, lsbStatus);
      if rawError == Ok {
        capacitance := SignedMeasurement(capRaw) as real / 524288.0;
        var error, temp := ReadRegister(CONF_MEAS1 + channel as bv8, confStatus);
        if error == I2cNoError {
          capacitance := capacitance + CapdacField(Join(temp)) as int as real * CAPDAC_FACTOR;
          err := Ok;
        }
      }
    }

    /** FDC_ReadCapdacSetting: the CAPDAC field of CONF_MEASn, 0 to 31. */
    method ReadCapdacSetting(channel: Channel, prior: bv8, status: I2cErrorCode) returns (err: FdcError, capdac: bv8)
      requires Valid()
      modifies this`Trace
      ensures Trace == old(Trace) + [ReadTransfer(ConfMeasAddress(channel))]
      ensures err == (if status == I2cNoError then Ok else CommErr)
      ensures capdac == if err == Ok then CapdacField(Join(regs[ConfMeasAddress(channel) as int])) else prior
      ensures err == Ok ==> capdac <= 31
    {
      err := CommErr;
      capdac := prior;
      var error, temp := ReadRegister(CONF_MEAS1 + channel as bv8, status);
      if error == I2cNoError {
        capdac := CapdacField(Join(temp));
        err := Ok;
      }
    }

    /**
     * FDC_IsDeviceConnected: a bus error is a communication error; otherwise
     * the probe's answer decides between OK and device-not-found.
     */
    method IsDeviceConnected(status: I2cErrorCode, connection: I2cConnection) returns (err: FdcError)
      modifies this`Trace
      ensures Trace == old(Trace) + [ProbeTransfer]
      ensures status != I2cNoError ==> err == CommErr
      ensures status == I2cNoError && connection == I2cDevConnected ==> err == Ok
      ensures status == I2cNoError && connection == I2cDevUnconnected ==> err == DevNotFound
    {
      Trace := Trace + [ProbeTransfer];
      err := CommErr;
      if status == I2cNoError {
        if connection == I2cDevConnected {
          err := Ok;
        } else {
          err := DevNotFound;
        }
      }
    }
  }

  // ------------------------------------------------------------------
  // A driver call followed by the call that reads its effect back
  // ------------------------------------------------------------------

  /**
   * FDC_SetSampleRate with an FDC_SampleRate enumerator, then
   * FDC_ReadSampleRate: when all three transfers succeed the rate read back
   * is the rate set, and FDC_CONF keeps every bit outside the RATE field.
   */
  method SetThenReadSampleRate(d: Fdc1004q, rate: SampleRate,
                               readStatus: I2cErrorCode, writeStatus: I2cErrorCode, readBackStatus: I2cErrorCode)
    returns (setErr: FdcError, readErr: FdcError, code: EnumValue)
    requires d.Valid()
    modifies d
    ensures d.Valid()
    ensures setErr == Ok && readErr == Ok ==> RateFromCode(code) == Some(rate)
    ensures d.regs[FDC_CONF as int].lo == old(d.regs[FDC_CONF as int].lo)
    ensures d.regs[FDC_CONF as int].hi & !RATE_MASK == old(d.regs[FDC_CONF as int].hi) & !RATE_MASK
    ensures forall a | 0 <= a < 256 && a != FDC_CONF as int :: d.regs[a] == old(d.regs[a])
  {
    RateRoundTrip(d.regs[FDC_CONF as int].hi, rate);
    setErr := d.SetSampleRate(RateCode(rate), readStatus, writeStatus);
    readErr, code := d.ReadSampleRate(0, readBackStatus);
  }

  /**
   * FDC_SetRawOffsetCalibration then FDC_ReadRawOffsetCalibration on the
   * same channel: the same `int16_t` comes back.
   */
  method SetThenReadRawOffset(d: Fdc1004q, channel: Channel, offset: bv16,
                              writeStatus: I2cErrorCode, readStatus: I2cErrorCode)
    returns (setErr: FdcError, readErr: FdcError, readBack: bv16)
    requires d.Valid()
    modifies d
    ensures d.Valid()
    ensures setErr == Ok && readErr == Ok ==> readBack == offset && Int16Value(readBack) == Int16Value(offset)
  {
    setErr := d.SetRawOffsetCalibration(channel, offset, writeStatus);
    readErr, readBack := d.ReadRawOffsetCalibration(channel, 0, readStatus);
  }

  /**
   * FDC_ConfigureMeasurement then FDC_ReadCapdacSetting on the same
   * channel: an accepted configuration's CAPDAC comes back unchanged.
   */
  method ConfigureThenReadCapdac(d: Fdc1004q, channel: Channel, pos: EnumValue, neg: EnumValue, capdac: bv8,
                                 readStatus: I2cErrorCode, writeStatus: I2cErrorCode, readBackStatus: I2cErrorCode)
    returns (confErr: FdcError, readErr: FdcError, readBack: bv8)
    requires d.Valid()
    modifies d
    ensures d.Valid()
    ensures confErr == Ok && readErr == Ok ==> readBack == capdac && readBack <= 31
  {
    confErr := d.ConfigureMeasurement(channel, pos, neg, capdac, readStatus, writeStatus);
    readErr, readBack := d.ReadCapdacSetting(channel, 0, readBackStatus);
  }
}
