# FDC1004Q driver model

A Dafny model of the PSoC firmware driver for the Texas Instruments FDC1004Q
four-channel capacitance-to-digital converter, with proofs about it.

The driver (`FDC1004Q.cydsn/FDC1004Q.c`) reaches the chip only through
16-bit registers, sent big-endian as two bytes over I2C. Every operation
follows the same pattern:

- read a register into a local `uint8_t temp[2]`;
- change bit fields in that buffer with masks and shifts;
- write it back, or hand the fields to the caller through an out-pointer.

Each operation reports `FDC_OK` only when all of its bus transfers succeed.

The model has four modules:

- `FdcDefs` (`fdc_defs.dfy`): the register map and the `FDC_Error`,
  `FDC_SampleRate`, `FDC_Channel`, `FDC_MeasInput` and `FDC_MeasDone`
  enumerations from `FDC1004Q_Defs.h`. Enumerations become datatypes, each
  with the integer value the C compiler gives its enumerators. A parameter
  of enumeration type is an `EnumValue`, the `unsigned char` the compiler
  uses for it, because C lets it hold values that name no enumerator. The
  module also gives the per-channel address arithmetic the driver uses.
- `FdcCodec` (`fdc_codec.dfy`): the bit arithmetic of the driver as pure
  functions on the two-byte buffer (`Word`). It covers:
  - the big-endian join and split;
  - the `int16_t` offset word and the unsigned gain word;
  - the RATE, initiate, done, RESET and REPEAT bits of FDC_CONF;
  - the CHA/CHB/CAPDAC fields of CONF_MEASn;
  - the 24-bit two's-complement measurement.

  Each codec function comes with the properties the driver relies on:
  fields kept or replaced, round trips, idempotence and ranges.
- `Fdc1004qDriver` (`fdc1004q.dfy`): the class `Fdc1004q`. It holds the
  chip's register file (`regs`, the 256 two-byte registers) and a ghost log
  of the bus transfers issued (`Trace`). It has one method per `FDC_*`
  function, except the four float functions listed under Left out, each
  with the same branches as the C code.
  - Every bus transfer takes its outcome (`I2cNoError` or `I2cError`) as a
    parameter, so each `FDC_COMM_ERR` path is verified.
  - An out-pointer becomes a `prior` input and an output. On a path that
    fails before the C code stores anything, the output is `prior`.
    `ReadRawMeasurement` and `ReadMeasurement` store part of the result
    before their last read, and their rows state what the pointee holds
    when that read fails.
  - Three methods pair a setter with the getter that reads it back (rate,
    raw offset, CAPDAC).
- `SerialInterface` (`serial_interface.dfy`): the four-byte sensor-check
  frame of `Serial_Interface.c`, with a reader that round-trips it.

Registers are modelled as two bytes (`Word(hi, lo)` is `temp[0]`,
`temp[1]`). An `int16_t` is modelled as its 16-bit two's-complement pattern,
with `Int16Value` giving its value. This keeps every edit at the width the C
code works in, and makes C's truncation to `uint8_t` and `uint16_t`
visible. The places where truncation or an unmasked shift loses or
misplaces bits are listed under Findings.

`FDC_ConfigureMeasurement` returns `FDC_CONF_ERR`
(`FDC1004Q.cydsn/FDC1004Q.c:327`), but the enumeration declares
`FDC_CONF_ERROR` (`FDC1004Q.cydsn/FDC1004Q_Defs.h:184`). As the files
stand, that return does not compile. The model takes the evident intent: a
single constructor, `ConfError`, stands for both names.

## Model

| member | source | states |
|---|---|---|
| FdcDefs.ErrorCode | FDC1004Q.cydsn/FDC1004Q_Defs.h:180-185 | FDC_OK is 0 and is the only error with value 0. Every error value lies in 0..3. |
| FdcDefs.RateCode | FDC1004Q.cydsn/FDC1004Q_Defs.h:190-194 | The sample-rate enumerators are 1, 2 and 3. None is 0, and all fit the 2-bit RATE field. |
| FdcDefs.RateFromCode | FDC1004Q.cydsn/FDC1004Q_Defs.h:190-194 | An integer names a sample rate exactly when it is 1, 2 or 3. |
| FdcDefs.RateCodeRoundTrip | FDC1004Q.cydsn/FDC1004Q_Defs.h:190-194 | Rate to value to rate is the identity, and so is value to rate to value for every value that names a rate. |
| FdcDefs.InputCode | FDC1004Q.cydsn/FDC1004Q_Defs.h:203-210 | IN_1..IN_4 are exactly the inputs with values 0..3. CAPDAC and DISABLED lie above 3. Every value is at most 5, so it fits the 3-bit CHA/CHB fields. |
| FdcDefs.InputCodeInjective | FDC1004Q.cydsn/FDC1004Q_Defs.h:203-210 | Two inputs have the same value exactly when they are the same input, so the driver's integer comparisons compare inputs. |
| FdcDefs.DoneCode | FDC1004Q.cydsn/FDC1004Q_Defs.h:212-215 | FDC_DONE is 0, FDC_NOT_DONE is 1, and only FDC_DONE is 0. |
| FdcDefs.MeasMsbAddress | FDC1004Q.cydsn/FDC1004Q.c:361 | `MEAS1_MSB + 2*channel` is the named MEASn_MSB register of the channel. |
| FdcDefs.MeasLsbAddress | FDC1004Q.cydsn/FDC1004Q.c:365 | `MEAS1_LSB + 2*channel` is the named MEASn_LSB register. |
| FdcDefs.ConfMeasAddress | FDC1004Q.cydsn/FDC1004Q.c:333 | `CONF_MEAS1 + channel` is the named CONF_MEASn register. |
| FdcDefs.OffsetCalAddress | FDC1004Q.cydsn/FDC1004Q.c:138-139 | `OFFSET_CAL_CIN1 + channel` is the named OFFSET_CAL_CINn register. |
| FdcDefs.GainCalAddress | FDC1004Q.cydsn/FDC1004Q.c:193-194 | `GAIN_CAL_CIN1 + channel` is the named GAIN_CAL_CINn register. |
| FdcDefs.ChannelRegistersDisjoint | FDC1004Q.cydsn/FDC1004Q_Defs.h:16-171 | The four per-channel families lie in 0x00-0x07, 0x08-0x0B, 0x0D-0x10 and 0x11-0x14. None of them holds FDC_CONF or the ID registers. Within a family, distinct channels get distinct registers. |
| FdcCodec.Join | FDC1004Q.cydsn/FDC1004Q.c:43 | `temp[0] << 8 \| temp[1]` has `temp[0]` as its high byte and `temp[1]` as its low byte. |
| FdcCodec.Split | FDC1004Q.cydsn/FDC1004Q.c:220 | `{v >> 8, v & 0xFF}` joins back to `v`. |
| FdcCodec.SplitJoin | FDC1004Q.cydsn/FDC1004Q.c:142 | Splitting a joined buffer gives back the same two bytes. |
| FdcCodec.Int16Value | FDC1004Q.cydsn/FDC1004Q.c:134-146 | The `int16_t` held in a 16-bit pattern lies in [-2^15, 2^15). It is negative exactly when bit 15 is set, and it is congruent to the pattern modulo 2^16. |
| FdcCodec.Int16ValueInjective | FDC1004Q.cydsn/FDC1004Q.c:142 | Two patterns give the same `int16_t` exactly when they are equal. |
| FdcCodec.Int16Of | FDC1004Q.cydsn/FDC1004Q.c:142 | The offset read from a buffer is negative exactly when the high byte is 0x80 or more. |
| FdcCodec.Int16RoundTrip | FDC1004Q.cydsn/FDC1004Q.c:164 | Splitting an `int16_t` into bytes and joining them back gives the same `int16_t`. |
| FdcCodec.OffsetPicofarads | FDC1004Q.cydsn/FDC1004Q.h:84-91 | A Q5.11 offset is the signed word over 2^11, in [-16, 16) pF. |
| FdcCodec.GainFactor | FDC1004Q.cydsn/FDC1004Q.h:169-174 | A Q2.14 gain is the unsigned word over 2^14, in [0, 4). |
| FdcCodec.GainSlotsAsWritten | FDC1004Q.cydsn/FDC1004Q.c:197-198 | As written, each of the two `uint16_t` slots receives one byte, so each is below 0x100. |
| FdcCodec.GainSlotsDiscrepancy | FDC1004Q.cydsn/FDC1004Q.c:197-198 | `gain[0]` equals the register value only for the zero register. The default gain 1.0 (0x4000) arrives as 0x40. |
| FdcCodec.RateField | FDC1004Q.cydsn/FDC1004Q.c:110 | `(temp[0] & 0x0C) >> 2` lies in 0..3. |
| FdcCodec.WithRate | FDC1004Q.cydsn/FDC1004Q.c:92-93 | For any value of the parameter: the RATE field becomes bits 1..0 of the value, bits 1..0 of the byte are kept, and bits 5..2 of the value are ORed into bits 7..4 of the byte (register bits 15..12), since the shifted value is not masked. |
| FdcCodec.RateRoundTrip | FDC1004Q.cydsn/FDC1004Q.c:92-110 | For an FDC_SampleRate enumerator, reading the RATE field after setting it names the rate that was set, and every other bit of the high byte is kept. |
| FdcCodec.RateValueUnchecked | FDC1004Q.cydsn/FDC1004Q.c:92-93 | Values outside the enumeration reach the register. 0 writes a RATE field that names no rate. 5 writes RATE 1 and also sets register bit 12. 48 sets register bits 15 (RESET) and 14 and leaves RATE 0. |
| FdcCodec.RateFieldSettable | FDC1004Q.cydsn/FDC1004Q.c:92-110 | Some FDC_SampleRate enumerator leaves FDC_CONF's high byte unchanged exactly when its RATE field reads 1..3. A field of 0 is written only by a value outside the enumeration. |
| FdcCodec.WithInitiate | FDC1004Q.cydsn/FDC1004Q.c:239-240 | Bit `7-channel` of the low byte becomes 1. All other bits are kept. |
| FdcCodec.WithoutInitiate | FDC1004Q.cydsn/FDC1004Q.c:258 | Bit `7-channel` becomes 0. All other bits are kept. |
| FdcCodec.InitiateIdempotent | FDC1004Q.cydsn/FDC1004Q.c:239-258 | Starting a channel twice equals starting it once, and likewise for stopping. |
| FdcCodec.InitiateStopCancel | FDC1004Q.cydsn/FDC1004Q.c:239-258 | Stopping after starting equals stopping. Starting after stopping equals starting. |
| FdcCodec.InitiateCommutes | FDC1004Q.cydsn/FDC1004Q.c:239-240 | Starting two channels gives the same byte in either order. |
| FdcCodec.DoneAsWritten | FDC1004Q.cydsn/FDC1004Q.c:276 | As written, the stored done value is at most `3-channel`. |
| FdcCodec.DoneAsWrittenDiscrepancy | FDC1004Q.cydsn/FDC1004Q.c:276 | For channel 4 the as-written value is always FDC_DONE, even when the done bit is clear. For channel 1 it can be 3, which names no FDC_MeasDone. |
| FdcCodec.MeasurementDone | FDC1004Q.cydsn/FDC1004Q.c:269-280 | The intended test gives FDC_DONE exactly when the channel's done bit (bit `3-channel`) is set. |
| FdcCodec.MeasurementDoneOwnBit | FDC1004Q.cydsn/FDC1004Q.c:276 | The intended test changes when the channel's own done bit flips, and not when another channel's does. |
| FdcCodec.ConfBitsAsWrittenUnchanged | FDC1004Q.cydsn/FDC1004Q.c:73 | OR-ing `1 << 15`, OR-ing `1 << 8`, or AND-ing `~(1 << 8)` into the `uint8_t` high byte leaves it unchanged; the same applies to lines 291 and 310. |
| FdcCodec.WithReset | FDC1004Q.cydsn/FDC1004Q.c:67-73 | The intended reset sets bit 7 of the high byte (register bit 15) and keeps bits 6..0. |
| FdcCodec.WithRepeat | FDC1004Q.cydsn/FDC1004Q.c:284-291 | The intended enable sets bit 0 of the high byte (register bit 8) and keeps the other bits. |
| FdcCodec.WithoutRepeat | FDC1004Q.cydsn/FDC1004Q.c:303-310 | The intended disable clears register bit 8 and keeps the other bits. |
| FdcCodec.RepeatLaws | FDC1004Q.cydsn/FDC1004Q.c:282-318 | Enabling and disabling repeat mode undo each other, and neither changes the RATE field. |
| FdcCodec.ConfigurationGuard | FDC1004Q.cydsn/FDC1004Q.c:325-328 | On enumerators the guard accepts exactly the configurations where `pos` is one of IN_1..IN_4, `neg` comes strictly after `pos`, and CAPDAC is at most 31. On raw values it accepts exactly: `pos` not 4 or 5, `pos` below `neg`, CAPDAC at most 31, so a `pos` of 6 or more can pass. |
| FdcCodec.CapdacField | FDC1004Q.cydsn/FDC1004Q.c:415 | `(temp16 >> 5) & 0x1F` lies in 0..31. |
| FdcCodec.ConfMeasFieldsDisjoint | FDC1004Q.cydsn/FDC1004Q.c:338-344 | The CHA, CHB and CAPDAC masks do not overlap, and together they cover bits 15..5. |
| FdcCodec.CapdacMaskTied | FDC1004Q.cydsn/FDC1004Q.c:415 | `(temp16 >> 5) & 0x1F` reads exactly the bits under `CAPDAC_MASK` (bits 9..5), the bits `capdac << 5` occupies when written. |
| FdcCodec.ConfMeasWord | FDC1004Q.cydsn/FDC1004Q.c:336-344 | For any accepted values: CHB holds bits 2..0 of `neg`, CHA holds bits 2..0 of `pos` ORed with bits 5..3 of `neg`, and CAPDAC holds `capdac`. Bit 4 is 0, and bits 3..0 are those of the old word. |
| FdcCodec.ConfMeasFields | FDC1004Q.cydsn/FDC1004Q.c:325-344 | For enumerators that pass the guard, CHA decodes to `pos` and CHB to `neg`. |
| FdcCodec.ConfigurationUnchecked | FDC1004Q.cydsn/FDC1004Q.c:325-344 | The guard lets through `pos` 6 with `neg` 7, which writes two codes that name no input. It also lets through `pos` 0 with `neg` 8, which leaves CHB 0 and turns CHA into 1 (IN_2). |
| FdcCodec.ConfigurationCorrectedFields | FDC1004Q.cydsn/FDC1004Q.c:325-344 | A guard that also refuses `neg` above 5 accepts only `pos` in 0..3 and `neg` in 1..5, and then CHA decodes to `pos` and CHB to `neg`. |
| FdcCodec.RawMeasurement | FDC1004Q.cydsn/FDC1004Q.c:364-368 | The four bytes of the 32-bit result are, from the top: MSB high, MSB low, LSB high and LSB low. |
| FdcCodec.Unsigned24 | FDC1004Q.cydsn/FDC1004Q.c:381 | The number formed by bytes 3..1 of `capRaw`, the bytes the C code keeps with `capRaw >> 8`, lies in [0, 2^24). |
| FdcCodec.SignedMeasurement | FDC1004Q.cydsn/FDC1004Q.c:381-385 | The sign-corrected value lies in [-2^23, 2^23) and is congruent modulo 2^24 to the number formed by bytes 3..1 of `capRaw`. |
| FdcCodec.SignedMeasurementSign | FDC1004Q.cydsn/FDC1004Q.c:382-385 | The result is negative exactly when bit 31 of the register pair is set. |
| FdcCodec.Unsigned24OfWords | FDC1004Q.cydsn/FDC1004Q.c:364-381 | The number formed by bytes 3..1 of `capRaw` is the base-256 number made of MSB high, MSB low and LSB high. |
| FdcCodec.SignedMeasurementIgnoresLowByte | FDC1004Q.cydsn/FDC1004Q.c:381 | The low byte of MEASn_LSB never affects the result. |
| FdcCodec.MeasurementPicofarads | FDC1004Q.cydsn/FDC1004Q.c:381-398 | The capacitance is the signed value over 2^19 plus 3.125 pF per CAPDAC step. It lies within 16 pF of the CAPDAC offset. |
| FdcCodec.MeasurementExamples | FDC1004Q.cydsn/FDC1004Q.c:381-398 | Raw 0 with CAPDAC 0 gives 0 pF, and the most negative raw value gives -16 pF. Raw 0 with CAPDAC 31 gives 96.875 pF. |
| Fdc1004qDriver.Fdc1004q.ReadRegister | FDC1004Q.cydsn/I2C_Interface.h:63 | A two-byte read logs one transfer. It returns the bus outcome, and on success the register's contents. |
| Fdc1004qDriver.Fdc1004q.WriteRegister | FDC1004Q.cydsn/I2C_Interface.h:90 | A two-byte write logs one transfer. It changes that one register on success and nothing on failure. |
| Fdc1004qDriver.Fdc1004q.ReadManufacturerId | FDC1004Q.cydsn/FDC1004Q.c:36-49 | Returns OK exactly when the read succeeds, and then the joined MANUFACTURER_ID register. Otherwise it returns COMM_ERR and the pointee keeps its value. |
| Fdc1004qDriver.Fdc1004q.ReadDeviceId | FDC1004Q.cydsn/FDC1004Q.c:51-63 | The same, for DEVICE_ID. |
| Fdc1004qDriver.Fdc1004q.Reset | FDC1004Q.cydsn/FDC1004Q.c:65-81 | As written, FDC_CONF is written back exactly as read, so no register changes. OK comes back exactly when both transfers succeed. |
| Fdc1004qDriver.Fdc1004q.ResetCorrected | FDC1004Q.cydsn/FDC1004Q.c:65-81 | The intended reset writes FDC_CONF with RESET set, only when the read succeeded. No other register is written. |
| Fdc1004qDriver.Fdc1004q.SetSampleRate | FDC1004Q.cydsn/FDC1004Q.c:83-101 | FDC_CONF is rewritten with its high byte passed through `WithRate` for the value given, and its low byte untouched. So for an enumerator only the RATE field changes, and for other values the bits `WithRate` describes change too. No write is issued when the read fails. OK comes back exactly when both transfers succeed. |
| Fdc1004qDriver.Fdc1004q.SetSampleRateCorrected | FDC1004Q.cydsn/FDC1004Q.c:83-101 | With a range check, a value naming no rate returns ConfError with no transfer. An accepted value is read back as the same rate, and no other bit of FDC_CONF changes. |
| Fdc1004qDriver.Fdc1004q.ReadSampleRate | FDC1004Q.cydsn/FDC1004Q.c:103-114 | On success the stored value is FDC_CONF's RATE field. |
| Fdc1004qDriver.Fdc1004q.ReadRawOffsetCalibration | FDC1004Q.cydsn/FDC1004Q.c:134-146 | On success the `int16_t` stored is the joined OFFSET_CAL_CINn register. |
| Fdc1004qDriver.Fdc1004q.SetRawOffsetCalibration | FDC1004Q.cydsn/FDC1004Q.c:162-173 | One write of the offset's bytes, high first, to OFFSET_CAL_CINn. Only that register changes. |
| Fdc1004qDriver.Fdc1004q.ReadRawGainCalibration | FDC1004Q.cydsn/FDC1004Q.c:189-202 | As written: on success `gain[0]` and `gain[1]` receive one register byte each, and the rest of the caller's array is untouched. When the object has one slot, as the header documents, `gain[0]` gets the high byte and the store to `gain[1]` is reported as an overrun. |
| Fdc1004qDriver.Fdc1004q.ReadRawGainCorrected | FDC1004Q.cydsn/FDC1004Q.c:189-202 | The intended read: on success the joined GAIN_CAL_CINn register. |
| Fdc1004qDriver.Fdc1004q.SetRawGainCalibration | FDC1004Q.cydsn/FDC1004Q.c:218-229 | One write of the gain's bytes, high first, to GAIN_CAL_CINn. Only that register changes. |
| Fdc1004qDriver.Fdc1004q.InitMeasurement | FDC1004Q.cydsn/FDC1004Q.c:231-248 | FDC_CONF gets the channel's initiate bit set, and nothing else changes. No write is issued after a failed read. |
| Fdc1004qDriver.Fdc1004q.StopMeasurement | FDC1004Q.cydsn/FDC1004Q.c:250-267 | FDC_CONF gets the channel's initiate bit cleared, and nothing else changes. |
| Fdc1004qDriver.Fdc1004q.IsMeasurementDone | FDC1004Q.cydsn/FDC1004Q.c:269-280 | As written, on success the stored value is `temp[1] & (3-channel)`. |
| Fdc1004qDriver.Fdc1004q.IsMeasurementDoneCorrected | FDC1004Q.cydsn/FDC1004Q.c:269-280 | The intended query: FDC_DONE exactly when the channel's done bit is set. |
| Fdc1004qDriver.Fdc1004q.EnableRepeatMeasurement | FDC1004Q.cydsn/FDC1004Q.c:282-299 | As written, FDC_CONF is written back exactly as read, so no register changes. |
| Fdc1004qDriver.Fdc1004q.DisableRepeatMeasurement | FDC1004Q.cydsn/FDC1004Q.c:301-318 | As written, FDC_CONF is written back exactly as read, so no register changes. |
| Fdc1004qDriver.Fdc1004q.EnableRepeatCorrected | FDC1004Q.cydsn/FDC1004Q.c:282-299 | The intended enable writes FDC_CONF with REPEAT set and every other bit kept. |
| Fdc1004qDriver.Fdc1004q.DisableRepeatCorrected | FDC1004Q.cydsn/FDC1004Q.c:301-318 | The intended disable writes FDC_CONF with REPEAT cleared and every other bit kept. |
| Fdc1004qDriver.Fdc1004q.ConfigureMeasurement | FDC1004Q.cydsn/FDC1004Q.c:320-355 | For any input values: a configuration the guard rejects returns ConfError, issues no transfer and changes nothing. Otherwise CONF_MEASn becomes `ConfMeasWord` of the old word, and no other register is written. OK comes back exactly when both transfers succeed. |
| Fdc1004qDriver.Fdc1004q.ConfigureMeasurementCorrected | FDC1004Q.cydsn/FDC1004Q.c:320-355 | With the guard that also refuses `neg` above 5: a rejected configuration changes nothing. Otherwise the written word's CHA and CHB decode to `pos` and `neg`. |
| Fdc1004qDriver.Fdc1004q.ReadRawMeasurement | FDC1004Q.cydsn/FDC1004Q.c:357-373 | On success the result is the MSB register on top of the LSB register. If the second read fails, the MSB half is already stored. |
| Fdc1004qDriver.Fdc1004q.ReadMeasurement | FDC1004Q.cydsn/FDC1004Q.c:374-403 | On success the result is the measurement in pF with the channel's CAPDAC added. If only the CONF_MEASn read fails, the result is the value without CAPDAC. If a measurement read fails, the result is untouched and no later read is issued. |
| Fdc1004qDriver.Fdc1004q.ReadCapdacSetting | FDC1004Q.cydsn/FDC1004Q.c:405-419 | On success the result is CONF_MEASn's CAPDAC field, which is in 0..31. |
| Fdc1004qDriver.Fdc1004q.IsDeviceConnected | FDC1004Q.cydsn/FDC1004Q.c:421-438 | A bus error gives COMM_ERR, a connected device gives OK, and an unconnected one gives DEV_NOT_FOUND. |
| Fdc1004qDriver.SetThenReadSampleRate | FDC1004Q.cydsn/FDC1004Q.c:83-114 | After a successful set with an enumerator and a successful read, the rate read back is the rate set. FDC_CONF keeps its low byte and every high-byte bit outside RATE, and every other register is unchanged. |
| Fdc1004qDriver.SetThenReadRawOffset | FDC1004Q.cydsn/FDC1004Q.c:134-173 | After a successful set and read on one channel, the same `int16_t` comes back. |
| Fdc1004qDriver.ConfigureThenReadCapdac | FDC1004Q.cydsn/FDC1004Q.c:320-419 | After a successful configuration and read, the same CAPDAC, in 0..31, comes back. |
| SerialInterface.SensorCheckPacket | FDC1004Q.cydsn/Serial_Interface.c:36 | The frame is 4 bytes: header 0xA0, type 0x00, the check byte unchanged, then tail 0xC0. |
| SerialInterface.SensorCheckPayload | FDC1004Q.cydsn/Serial_Interface.c:36 | A byte string is read as a sensor-check frame exactly when it has that layout, and the payload is its third byte. |
| SerialInterface.SensorCheckRoundTrip | FDC1004Q.cydsn/Serial_Interface.c:34-39 | Every frame the firmware builds is read back as its check byte. |
| SerialInterface.SensorCheckFramesOnly | FDC1004Q.cydsn/Serial_Interface.c:36 | A byte string is accepted by the reader exactly when it is the frame built from some check byte. Distinct check bytes give distinct frames. |
| SerialInterface.SendSensorCheckPacket | FDC1004Q.cydsn/Serial_Interface.c:34-39 | Always returns SERIAL_OK, and the 4 bytes sent carry the check byte. |

## Left out

- The I2C transport (`I2C_Interface.h`). It is foreign hardware code. It is modelled as a register file, where each transfer's outcome is a parameter. A failed write is taken to leave the register unchanged. Every transfer goes to the one device address (`FDC1004Q_I2C_ADDR`, 0x50), so transfers are not tagged with an address.
- The chip's own register changes. The model's register file is passive memory: it holds what the driver last wrote, and only the driver's writes change it. On the chip, RESET clears itself and restores every register's default. The chip sets DONE bits and measurement results on its own schedule, and hardware clears a single-shot initiate bit. The ID and result registers are read-only. None of this is modelled, so "no other register changes" in the rows above means that the driver writes no other register. The round trips for rate, offset and CAPDAC involve only registers the host owns.
- The contents of `temp` after a failed read are unspecified in C. The driver never uses them, and the model returns zeros there.
- `temp[0] << 24` in `FDC_ReadRawMeasurement` shifts into the sign bit of `int`. For an MSB of 0x80 or more this is undefined behaviour in C. The model takes the bit pattern that compilers produce.
- The value conversions of `int16_t` are implementation-defined in C: storing 0x8000..0xFFFF into it, and `offset >> 8` on a negative offset. The model assumes two's complement with an arithmetic shift, as on the PSoC compiler.
- The float functions are not modelled: `FDC_ReadOffsetCalibration`, `FDC_SetOffsetCalibration`, `FDC_ReadGainCalibration` and `FDC_SetGainCalibration` (`FDC1004Q.c:116-132`, `148-160`, `175-187`, `204-216`). Nor are the `fixed_to_float_*` / `float_to_fixed_*` helpers (`FDC1004Q.c:443-461`). They involve binary32 rounding and truncating casts. The exact-real meanings of the two fixed-point words are given by `OffsetPicofarads` and `GainFactor`.
- `FDC_ReadMeasurement` computes in `double`. Each quantity it forms is an integer below 2^25, that integer over 2^19, or a multiple of 3.125 below 100. All of these are exact in binary64. The final sum is a multiple of 2^-19 of magnitude below 2^7, so it needs fewer than 53 significant bits and is exact too. The model therefore uses `real`.
- `main.c` is not part of this model. It is start-up, printing and an unbounded polling loop. Note that `main.c:27` tests `if (FDC_IsDeviceConnected())`, which is true for FDC_COMM_ERR and FDC_DEV_NOT_FOUND and false for FDC_OK (value 0), so its LED lights when the device is absent.
- `Serial_Start`, `Serial_SendResetMessage` and the UART calls are I/O with no logic. The send in `Serial_SendSensorCheckPacket` is modelled as the returned bytes.
- Enumeration parameters are 8-bit values (`EnumValue`), the type GCC gives these enumerations under its bare-metal ARM default of short enums. A build with `-fno-short-enums` would pass 32-bit values; those are not modelled. Their effect on the written fields depends only on their low bits, but the guard of `FDC_ConfigureMeasurement` compares all 32 bits.
- ReadRawGainCalibration: the store to `gain[1]` past a one-slot object is undefined behaviour in C. The model only reports it (`overrun`), with `gain[0]` written. What that store does to neighbouring memory is not modelled.
- No driver function range-checks `channel`. The model makes `Channel` the subset type 0..3, so out-of-range channels are not modelled.

## Findings

| source | as written | input that shows it | evidently intended | confidence | as-written member | corrected member |
|---|---|---|---|---|---|---|
| FDC1004Q.cydsn/FDC1004Q.c:73 | `temp[0] \|= 1 << 15` on a `uint8_t` high byte; the bit is truncated away and FDC_CONF is written back unchanged (lines 291 and 310 do the same with bit 8) | any FDC_CONF value, e.g. 0x0000: the write carries 0x0000, RESET (and REPEAT) never set | set register bit 15 (bit 7 of the high byte) for reset, set/clear register bit 8 (bit 0 of the high byte) for repeat | high; not executed | FdcCodec.ConfBitsAsWrittenUnchanged, Fdc1004qDriver.Fdc1004q.Reset, Fdc1004qDriver.Fdc1004q.EnableRepeatMeasurement, Fdc1004qDriver.Fdc1004q.DisableRepeatMeasurement | FdcCodec.WithReset, FdcCodec.RepeatLaws, Fdc1004qDriver.Fdc1004q.ResetCorrected, Fdc1004qDriver.Fdc1004q.EnableRepeatCorrected, Fdc1004qDriver.Fdc1004q.DisableRepeatCorrected |
| FDC1004Q.cydsn/FDC1004Q.c:276 | done flag is `temp[1] & (3-channel)`, a mask by the number 3-channel | channel FDC_CH_4 with low byte 0x00 (done bit clear) reports FDC_DONE; FDC_CH_1 with low byte 0x03 stores 3 | FDC_DONE exactly when the channel's done bit (bit 3-channel) is set | high; not executed | FdcCodec.DoneAsWrittenDiscrepancy, Fdc1004qDriver.Fdc1004q.IsMeasurementDone | FdcCodec.MeasurementDoneOwnBit, Fdc1004qDriver.Fdc1004q.IsMeasurementDoneCorrected |
| FDC1004Q.cydsn/FDC1004Q.c:197-198 | `gain[0] = temp[0]; gain[1] = temp[1];` into a `uint16_t*`: one byte per 16-bit slot, and a second slot written | GAIN_CAL = 0x4000 (gain 1.0) gives `*gain == 0x40`; a caller that passes a pointer to one `uint16_t`, as `FDC1004Q.cydsn/FDC1004Q.h:197` documents, has the object after it overwritten by `gain[1]` | `*gain = temp[0] << 8 \| temp[1]` | high; not executed | FdcCodec.GainSlotsDiscrepancy, Fdc1004qDriver.Fdc1004q.ReadRawGainCalibration | Fdc1004qDriver.Fdc1004q.ReadRawGainCorrected |
| FDC1004Q.cydsn/FDC1004Q.c:93 | `temp[0] \|= (sampleRate << 2)` with no mask or range check on the FDC_SampleRate value | 48 (the GUI firmware's serial parser makes 48 from a non-digit, `FDC1004Q GUI.cydsn/Serial_Interface.c:301`, `:442-452`, but hands it to a different driver version, whose `FDC_SetSampleRate` refuses values above FDC_400_Hz, `FDC1004Q Rate Testing.cydsn/FDC1004Q.c:124-125`) sets RESET and register bit 14; 5 sets register bit 12; 0 writes a RATE field that names no rate | refuse a value outside 1..3, so only the RATE field changes | medium; not executed | FdcCodec.RateValueUnchecked, Fdc1004qDriver.Fdc1004q.SetSampleRate | FdcCodec.RateRoundTrip, Fdc1004qDriver.Fdc1004q.SetSampleRateCorrected |
| FDC1004Q.cydsn/FDC1004Q.c:325 | the guard compares `pos` and `neg` but never bounds `neg`, and lines 342-344 OR the shifted values in unmasked | `pos` 0, `neg` 8 is accepted (the GUI firmware's parser takes `pos` and `neg` from unchecked 4-bit nibbles, `FDC1004Q GUI.cydsn/Serial_Interface.c:396-397`, but hands them to `FDC_ConfigureChannel` of a different driver version, which this driver does not define) and writes CHA = 1, CHB = 0; `pos` 6, `neg` 7 writes two reserved codes | refuse `neg` above FDC_DISABLED, so CHA and CHB hold `pos` and `neg` | medium; not executed | FdcCodec.ConfigurationUnchecked, Fdc1004qDriver.Fdc1004q.ConfigureMeasurement | FdcCodec.ConfigurationCorrectedFields, Fdc1004qDriver.Fdc1004q.ConfigureMeasurementCorrected |
