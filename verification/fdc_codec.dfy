/**
 * The bit-level arithmetic of the FDC1004Q driver (FDC1004Q.c), as pure
 * functions on the two bytes in which each 16-bit register travels over the
 * bus, high byte first.
 *
 * The driver keeps a register in a local `uint8_t temp[2]`: `temp[0]` is
 * bits 15:8 and `temp[1]` bits 7:0. C evaluates `temp[i] op expr` in `int`
 * and stores the result back into a `uint8_t`, keeping its low 8 bits;
 * `Truncate8` (and `Truncate16` for `uint16_t`) makes that step explicit
 * where it loses bits.
 */
module FdcCodec {
  import opened FdcDefs

  // ------------------------------------------------------------------
  // Bytes and words
  // ------------------------------------------------------------------

  /** A register as the buffer `temp[2]` holds it: `hi` is `temp[0]`, `lo` is `temp[1]`. */
  datatype Word = Word(hi: bv8, lo: bv8)

  /** `temp[0] << 8 | temp[1]`: the 16-bit register value of a buffer. */
  function Join(w: Word): (v: bv16)
    ensures (v >> 8) as bv8 == w.hi
    ensures (v & 0xFF) as bv8 == w.lo
  {
    (w.hi as bv16 << 8) | w.lo as bv16
  }

  /** `{v >> 8, v & 0xFF}`: the buffer a 16-bit value is sent as. */
  function Split(v: bv16): (w: Word)
    ensures Join(w) == v
  {
    Word((v >> 8) as bv8, (v & 0xFF) as bv8)
  }

  /** Splitting a joined buffer gives the buffer back: the join loses nothing. */
  lemma SplitJoin(w: Word)
    ensures Split(Join(w)) == w
  {
  }

  /** Conversion of an `int` result to `uint8_t`: only the low 8 bits survive. */
  function Truncate8(x: bv32): bv8
  {
    (x & 0xFF) as bv8
  }

  /** Conversion of an `unsigned int` result to `uint16_t`: only the low 16 bits survive. */
  function Truncate16(x: bv32): bv16
  {
    (x & 0xFFFF) as bv16
  }

  // ------------------------------------------------------------------
  // Signed 16-bit words (offset calibration)
  // ------------------------------------------------------------------

  /**
   * The value of an `int16_t` held as its 16-bit two's-complement pattern
   * `p`: patterns from 0x8000 up are negative.
   */
  function Int16Value(p: bv16): (x: int)
    ensures -0x8000 <= x < 0x8000
    ensures x < 0 <==> p >> 15 == 1
    ensures p as int == if x < 0 then x + 0x10000 else x
  {
    if p < 0x8000 then p as int else p as int - 0x10000
  }

  /** Distinct patterns are distinct `int16_t` values. */
  lemma Int16ValueInjective(p: bv16, q: bv16)
    ensures Int16Value(p) == Int16Value(q) <==> p == q
  {
    if Int16Value(p) == Int16Value(q) {
      assert p as int == q as int;
      assert (p as int) as bv16 == p && (q as int) as bv16 == q;
    }
  }

  /**
   * `*offset = temp[0] << 8 | temp[1]` for an `int16_t* offset`: the joined
   * buffer is the pattern of the stored value.
   */
  function Int16Of(w: Word): (x: int)
    ensures -0x8000 <= x < 0x8000
    ensures x < 0 <==> w.hi >= 0x80
  {
    Int16Value(Join(w))
  }

  /**
   * `{offset >> 8, offset & 0xFF}` for an `int16_t offset` is `Split` of its
   * pattern (the arithmetic shift copies the sign into bits above 7, which
   * the store into `uint8_t` drops); joining the buffer back yields the same
   * `int16_t`.
   */
  lemma Int16RoundTrip(p: bv16)
    ensures Int16Of(Split(p)) == Int16Value(p)
  {
  }

  /** Q5.11 offset in picofarads (5 integer bits including the sign, 11 fractional bits). */
  function OffsetPicofarads(p: bv16): (pf: real)
    ensures -16.0 <= pf < 16.0
    ensures pf * 2048.0 == Int16Value(p) as real
  {
    Int16Value(p) as real / 2048.0
  }

  /** Q2.14 gain factor (2 integer bits, 14 fractional bits, unsigned). */
  function GainFactor(v: bv16): (g: real)
    ensures 0.0 <= g < 4.0
    ensures g * 16384.0 == v as int as real
  {
    v as int as real / 16384.0
  }

  /** `gain[0] = temp[0]; gain[1] = temp[1];` for a `uint16_t* gain`: one byte per 16-bit slot. */
  function GainSlotsAsWritten(w: Word): (slots: (bv16, bv16))
    ensures slots.0 < 0x100 && slots.1 < 0x100
  {
    (w.hi as bv16, w.lo as bv16)
  }

  /**
   * The first slot holds the register value only when the register is zero;
   * a gain of 1.0 (0x4000) arrives as 0x40.
   */
  lemma GainSlotsDiscrepancy(w: Word)
    ensures GainSlotsAsWritten(w).0 == Join(w) <==> w == Word(0, 0)
    ensures GainSlotsAsWritten(Split(0x4000)).0 == 0x40 && GainFactor(0x4000) == 1.0
  {
  }

  // ------------------------------------------------------------------
  // FDC_CONF: RATE field (bits 11:10)
  // ------------------------------------------------------------------

  /** Bits 11:10 of FDC_CONF are bits 3:2 of its high byte. */
  const RATE_MASK: bv8 := 0x0C

  /** `(temp[0] & 0x0C) >> 2`: the raw RATE field, 0 to 3. */
  function RateField(hi: bv8): (f: bv8)
    ensures f <= 3
  {
    (hi & RATE_MASK) >> 2
  }

  /**
   * `temp[0] &= ~0x0C; temp[0] |= (sampleRate << 2);` for whatever value the
   * FDC_SampleRate parameter holds. The shifted value is ORed in without a
   * mask and the store keeps the low 8 bits: bits 1:0 of the value become
   * the RATE field, bits 5:2 are ORed into bits 7:4 of the byte (register
   * bits 15:12, RESET among them), and bits 1:0 of the byte are kept.
   */
  function WithRate(hi: bv8, sampleRate: EnumValue): (r: bv8)
    ensures RateField(r) == sampleRate & 3
    ensures r & 0x03 == hi & 0x03
    ensures r >> 4 == (hi >> 4) | ((sampleRate >> 2) & 0x0F)
  {
    (hi & !RATE_MASK) | Truncate8(sampleRate as bv32 << 2)
  }

  /**
   * For an FDC_SampleRate enumerator, reading the RATE field back yields the
   * rate that was set, and no other bit of the byte changes.
   */
  lemma RateRoundTrip(hi: bv8, rate: SampleRate)
    ensures RateFromCode(RateField(WithRate(hi, RateCode(rate)))) == Some(rate)
    ensures WithRate(hi, RateCode(rate)) & !RATE_MASK == hi & !RATE_MASK
  {
    RateCodeRoundTrip(rate, 0);
  }

  /**
   * Values outside the enumeration reach the register unchecked: 0 writes a
   * RATE field that names no rate; 5 writes RATE 1 and also sets register
   * bit 12; 48 (what the serial command parser makes of a non-digit) sets
   * register bits 15 (RESET) and 14 and leaves RATE 0.
   */
  lemma RateValueUnchecked(hi: bv8)
    ensures RateFromCode(RateField(WithRate(hi, 0))) == None
    ensures WithRate(0x00, 5) == 0x14 && RateFromCode(RateField(0x14)) == Some(Rate100Hz)
    ensures WithRate(hi, 48) >> 6 == 3 && RateField(WithRate(hi, 48)) == 0
  {
  }

  /**
   * Some FDC_SampleRate enumerator leaves the high byte of FDC_CONF as it is
   * exactly when its RATE field already names a rate: a field of 0 is
   * written only by a value outside the enumeration.
   */
  lemma RateFieldSettable(hi: bv8)
    ensures 1 <= RateField(hi) <==> exists rate :: WithRate(hi, RateCode(rate)) == hi
  {
    if 1 <= RateField(hi) {
      var rate := RateFromCode(RateField(hi)).value;
      RateCodeRoundTrip(rate, RateField(hi));
      RateRoundTrip(hi, rate);
      assert WithRate(hi, RateCode(rate)) == hi;
    }
  }

  // ------------------------------------------------------------------
  // FDC_CONF: per-channel initiate bits (bits 7:4) and done bits (3:0)
  // ------------------------------------------------------------------

  /** `1 << (7-channel)`: the initiate bit of a channel within the low byte. */
  function InitBit(ch: Channel): (m: bv8)
    ensures m == [0x80, 0x40, 0x20, 0x10][ch]
  {
    1 << (7 - ch)
  }

  /** `temp[1] &= ~(1 << (7-channel)); temp[1] |= (1 << (7-channel));` */
  function WithInitiate(lo: bv8, ch: Channel): (r: bv8)
    ensures r & InitBit(ch) == InitBit(ch)
    ensures r & !InitBit(ch) == lo & !InitBit(ch)
  {
    (lo & !InitBit(ch)) | InitBit(ch)
  }

  /** `temp[1] &= ~(1 << (7-channel));` */
  function WithoutInitiate(lo: bv8, ch: Channel): (r: bv8)
    ensures r & InitBit(ch) == 0
    ensures r & !InitBit(ch) == lo & !InitBit(ch)
  {
    lo & !InitBit(ch)
  }

  /** Starting a channel twice is starting it once; likewise stopping. */
  lemma InitiateIdempotent(lo: bv8, ch: Channel)
    ensures WithInitiate(WithInitiate(lo, ch), ch) == WithInitiate(lo, ch)
    ensures WithoutInitiate(WithoutInitiate(lo, ch), ch) == WithoutInitiate(lo, ch)
  {
  }

  /** Stopping after starting is stopping; starting after stopping is starting. */
  lemma InitiateStopCancel(lo: bv8, ch: Channel)
    ensures WithoutInitiate(WithInitiate(lo, ch), ch) == WithoutInitiate(lo, ch)
    ensures WithInitiate(WithoutInitiate(lo, ch), ch) == WithInitiate(lo, ch)
  {
  }

  /** Starting two channels gives the same byte in either order. */
  lemma InitiateCommutes(lo: bv8, ch: Channel, other: Channel)
    ensures WithInitiate(WithInitiate(lo, ch), other) == WithInitiate(WithInitiate(lo, other), ch)
  {
  }

  /** `temp[1] & (3-channel)`: the value the driver stores as the done flag. */
  function DoneAsWritten(lo: bv8, ch: Channel): (d: bv8)
    ensures d <= 3 - ch as bv8
  {
    lo & (3 - ch) as bv8
  }

  /**
   * As written, channel 4 (index 3) always reads FDC_DONE, whatever its done
   * bit (bit 0) says; channel 1 can yield 3, which is not an FDC_MeasDone
   * enumerator.
   */
  lemma DoneAsWrittenDiscrepancy(lo: bv8)
    ensures DoneAsWritten(lo, 3) == DoneCode(Done)
    ensures MeasurementDone(0x00, 3) == NotDone
    ensures DoneAsWritten(0x03, 0) == 3
  {
  }

  /** `0x08 >> channel`: the done bit of a channel (DONE_1 is bit 3 ... DONE_4 bit 0). */
  function DoneBit(ch: Channel): (m: bv8)
    ensures m == [0x08, 0x04, 0x02, 0x01][ch]
  {
    0x08 >> ch
  }

  /** The evidently intended done test: FDC_DONE exactly when the channel's own done bit is set. */
  function MeasurementDone(lo: bv8, ch: Channel): (d: MeasDone)
    ensures d == Done <==> (lo >> (3 - ch)) & 1 == 1
  {
    if lo & DoneBit(ch) != 0 then Done else NotDone
  }

  /** The corrected test looks at the channel's own done bit and at nothing else. */
  lemma MeasurementDoneOwnBit(lo: bv8, ch: Channel, other: Channel)
    ensures other != ch ==> MeasurementDone(lo ^ DoneBit(other), ch) == MeasurementDone(lo, ch)
    ensures MeasurementDone(lo ^ DoneBit(ch), ch) != MeasurementDone(lo, ch)
    ensures MeasurementDone(0x00, ch) == NotDone && MeasurementDone(0x0F, ch) == Done
  {
  }

  // ------------------------------------------------------------------
  // FDC_CONF: RESET (bit 15) and REPEAT (bit 8)
  // ------------------------------------------------------------------

  /** `temp[0] |= 1 << FDC_FDC_CONF_RESET_BIT`, the register bit number 15 applied to the high byte. */
  function ResetByteAsWritten(hi: bv8): bv8
  {
    Truncate8(hi as bv32 | (1 << 15))
  }

  /** `temp[0] |= (1 << 8)` */
  function RepeatOnByteAsWritten(hi: bv8): bv8
  {
    Truncate8(hi as bv32 | (1 << 8))
  }

  /** `temp[0] &= ~(1 << 8)` */
  function RepeatOffByteAsWritten(hi: bv8): bv8
  {
    Truncate8(hi as bv32 & !(1 << 8))
  }

  /**
   * The bit positions 15 and 8 are register bit numbers, but they are applied
   * to the high byte alone; after truncation to 8 bits the byte is unchanged.
   */
  lemma ConfBitsAsWrittenUnchanged(hi: bv8)
    ensures ResetByteAsWritten(hi) == hi
    ensures RepeatOnByteAsWritten(hi) == hi
    ensures RepeatOffByteAsWritten(hi) == hi
  {
  }

  /** High byte of FDC_CONF with RESET (register bit 15, bit 7 of the byte) set; the rest kept. */
  function WithReset(hi: bv8): (r: bv8)
    ensures r >> 7 == 1
    ensures r & 0x7F == hi & 0x7F
  {
    hi | 0x80
  }

  /** High byte of FDC_CONF with REPEAT (register bit 8, bit 0 of the byte) set; the rest kept. */
  function WithRepeat(hi: bv8): (r: bv8)
    ensures r & 1 == 1
    ensures r & 0xFE == hi & 0xFE
  {
    hi | 0x01
  }

  /** High byte of FDC_CONF with REPEAT cleared; the rest kept. */
  function WithoutRepeat(hi: bv8): (r: bv8)
    ensures r & 1 == 0
    ensures r & 0xFE == hi & 0xFE
  {
    hi & 0xFE
  }

  /** Enabling and disabling repeat mode undo each other on a byte that had it off, or on. */
  lemma RepeatLaws(hi: bv8)
    ensures hi & 1 == 0 ==> WithoutRepeat(WithRepeat(hi)) == hi
    ensures hi & 1 == 1 ==> WithRepeat(WithoutRepeat(hi)) == hi
    ensures RateField(WithRepeat(hi)) == RateField(hi) && RateField(WithoutRepeat(hi)) == RateField(hi)
  {
  }

  // ------------------------------------------------------------------
  // CONF_MEASn: CHA (15:13), CHB (12:10), CAPDAC (9:5), reserved (4)
  // ------------------------------------------------------------------

  /** The guard of FDC_ConfigureMeasurement, as written, on the values the two FDC_MeasInput parameters hold. */
  predicate ConfigurationRejected(pos: EnumValue, neg: EnumValue, capdac: bv8)
  {
    neg == pos || pos > neg || capdac > 31 || pos == InputCode(Capdac) || pos == InputCode(Disabled)
  }

  /**
   * On enumerators the guard accepts exactly the configurations whose
   * positive input is a pin IN1..IN4, whose negative input comes strictly
   * later in the enumeration, and whose CAPDAC fits its 5-bit field. On raw
   * values it also lets through a positive value of 6 or more, as long as
   * the negative value is larger still.
   */
  lemma ConfigurationGuard(p: MeasInput, n: MeasInput, pos: EnumValue, neg: EnumValue, capdac: bv8)
    ensures !ConfigurationRejected(InputCode(p), InputCode(n), capdac) <==>
      p in {In1, In2, In3, In4} && InputCode(p) < InputCode(n) && capdac <= 31
    ensures !ConfigurationRejected(pos, neg, capdac) <==> (pos <= 3 || 6 <= pos) && pos < neg && capdac <= 31
    ensures !ConfigurationRejected(InputCode(In1), InputCode(Capdac), 5)
  {
  }

  /** `(temp16 >> 5) & 0x1F`: the CAPDAC field, 0 to 31. */
  function CapdacField(v: bv16): (c: bv8)
    ensures c <= 31
  {
    ((v >> 5) & 0x1F) as bv8
  }

  const CHA_MASK: bv16 := 0xE000
  const CHB_MASK: bv16 := 0x1C00
  const CAPDAC_MASK: bv16 := 0x03E0

  /** The three configuration fields occupy disjoint bits, clear of bits 4:0. */
  lemma ConfMeasFieldsDisjoint()
    ensures CHA_MASK & CHB_MASK == 0 && CHA_MASK & CAPDAC_MASK == 0 && CHB_MASK & CAPDAC_MASK == 0
    ensures (CHA_MASK | CHB_MASK | CAPDAC_MASK) == 0xFFE0
  {
  }

  /** `CapdacField` reads exactly the bits that `CAPDAC_MASK` selects. */
  lemma CapdacMaskTied(v: bv16)
    ensures CapdacField(v) as bv16 == (v & CAPDAC_MASK) >> 5
  {
  }

  /**
   * `temp16 &= ~0xFFF0; temp16 |= capdac << 5; temp16 |= pos << 13;
   * temp16 |= neg << 10;` for an accepted configuration. The shifted values
   * are ORed in without a mask and the store keeps the low 16 bits: CHB
   * takes bits 2:0 of `neg`, CHA takes bits 2:0 of `pos` ORed with bits 5:3
   * of `neg`, CAPDAC takes `capdac`, bit 4 is cleared and bits 3:0 are kept.
   */
  function ConfMeasWord(v: bv16, pos: EnumValue, neg: EnumValue, capdac: bv8): (r: bv16)
    requires !ConfigurationRejected(pos, neg, capdac)
    ensures (r & CHA_MASK) >> 13 == ((pos | (neg >> 3)) & 7) as bv16
    ensures (r & CHB_MASK) >> 10 == (neg & 7) as bv16
    ensures CapdacField(r) == capdac
    ensures r & 0x0010 == 0
    ensures r & 0x000F == v & 0x000F
  {
    var cleared := v & !0xFFF0;
    var withCapdac := cleared | (capdac as bv16 << 5);
    var withPos := withCapdac | Truncate16(pos as bv32 << 13);
    withPos | Truncate16(neg as bv32 << 10)
  }

  /** For enumerators every field of an accepted configuration decodes to its argument. */
  lemma ConfMeasFields(v: bv16, p: MeasInput, n: MeasInput, capdac: bv8)
    requires !ConfigurationRejected(InputCode(p), InputCode(n), capdac)
    ensures (ConfMeasWord(v, InputCode(p), InputCode(n), capdac) & CHA_MASK) >> 13 == InputCode(p) as bv16
    ensures (ConfMeasWord(v, InputCode(p), InputCode(n), capdac) & CHB_MASK) >> 10 == InputCode(n) as bv16
  {
  }

  /**
   * Raw values the guard lets through: `pos` 6 with `neg` 7 writes two
   * codes that name no input; `pos` 0 (IN_1) with `neg` 8 leaves CHB 0 and
   * ORs bit 3 of `neg` into CHA, which then reads IN_2.
   */
  lemma ConfigurationUnchecked(v: bv16)
    ensures !ConfigurationRejected(6, 7, 0) && !ConfigurationRejected(0, 8, 0)
    ensures (ConfMeasWord(v, 6, 7, 0) & CHA_MASK) >> 13 == 6
    ensures (ConfMeasWord(v, 0, 8, 0) & CHA_MASK) >> 13 == 1
    ensures (ConfMeasWord(v, 0, 8, 0) & CHB_MASK) >> 10 == 0
  {
  }

  /**
   * The guard with the range check it lacks: a negative value past
   * FDC_DISABLED is refused as well.
   */
  predicate ConfigurationRejectedCorrected(pos: EnumValue, neg: EnumValue, capdac: bv8)
  {
    ConfigurationRejected(pos, neg, capdac) || neg > InputCode(Disabled)
  }

  /**
   * The corrected guard accepts only enumerator values, with `pos` a pin
   * IN_1..IN_4, and then CHA and CHB decode to `pos` and `neg`.
   */
  lemma ConfigurationCorrectedFields(v: bv16, pos: EnumValue, neg: EnumValue, capdac: bv8)
    requires !ConfigurationRejectedCorrected(pos, neg, capdac)
    ensures pos <= 3 && 1 <= neg <= 5
    ensures (ConfMeasWord(v, pos, neg, capdac) & CHA_MASK) >> 13 == pos as bv16
    ensures (ConfMeasWord(v, pos, neg, capdac) & CHB_MASK) >> 10 == neg as bv16
  {
  }

  // ------------------------------------------------------------------
  // Measurement words
  // ------------------------------------------------------------------

  /** The three upper bytes of a 32-bit word, most significant first: the bytes of `capRaw >> 8`. */
  function UpperBytes(raw: bv32): (bv8, bv8, bv8)
  {
    ((raw >> 24) as bv8, ((raw >> 16) & 0xFF) as bv8, ((raw >> 8) & 0xFF) as bv8)
  }

  /**
   * `(temp[0] << 24) | (temp[1] << 16)`, then `|= temp[0] << 8 | temp[1]`:
   * the MEASn_MSB buffer on top of the MEASn_LSB buffer.
   */
  function RawMeasurement(msb: Word, lsb: Word): (raw: bv32)
    ensures UpperBytes(raw) == (msb.hi, msb.lo, lsb.hi)
    ensures (raw & 0xFF) as bv8 == lsb.lo
  {
    (Join(msb) as bv32 << 16) | Join(lsb) as bv32
  }

  /** The number formed by the three upper bytes of `capRaw` (the bytes of `capRaw >> 8`): 0 to 2^24 - 1. */
  function Unsigned24(raw: bv32): (u: int)
    ensures 0 <= u < 0x100_0000
  {
    var (b2, b1, b0) := UpperBytes(raw);
    b2 as int * 0x10000 + b1 as int * 0x100 + b0 as int
  }

  /**
   * The number formed by the three upper bytes of `capRaw` (what the C code
   * keeps with `capRaw >> 8`) read as 24-bit two's complement: the only value
   * in [-2^23, 2^23) congruent to it modulo 2^24.
   */
  function SignedMeasurement(raw: bv32): (s: int)
    ensures -0x80_0000 <= s < 0x80_0000
    ensures (s - Unsigned24(raw)) % 0x100_0000 == 0
  {
    var u := Unsigned24(raw);
    if u > 0x7F_FFFF then u - 0x100_0000 else u
  }

  /** The result is negative exactly when bit 31 of the register pair is set. */
  lemma SignedMeasurementSign(raw: bv32)
    ensures SignedMeasurement(raw) < 0 <==> (raw >> 24) as bv8 >= 0x80
  {
  }

  /** The value of `capRaw >> 8` in terms of the three bytes it is made of. */
  lemma Unsigned24OfWords(msb: Word, lsb: Word)
    ensures Unsigned24(RawMeasurement(msb, lsb)) == msb.hi as int * 0x10000 + msb.lo as int * 0x100 + lsb.hi as int
  {
  }

  /** The low 8 bits of the register pair never affect the decoded result. */
  lemma SignedMeasurementIgnoresLowByte(msb: Word, lsb: Word, lsb': Word)
    requires lsb.hi == lsb'.hi
    ensures SignedMeasurement(RawMeasurement(msb, lsb)) == SignedMeasurement(RawMeasurement(msb, lsb'))
  {
  }

  /**
   * FDC_ReadMeasurement's result in picofarads: the signed 24-bit value
   * over 2^19, plus 3.125 pF per CAPDAC step. Every quantity involved is
   * exactly representable as a double, so real arithmetic is exact here.
   */
  function MeasurementPicofarads(raw: bv32, capdac: bv8): (pf: real)
    ensures -16.0 + capdac as int as real * 3.125 <= pf < 16.0 + capdac as int as real * 3.125
    ensures (pf - capdac as int as real * 3.125) * 524288.0 == SignedMeasurement(raw) as real
  {
    SignedMeasurement(raw) as real / 524288.0 + capdac as int as real * 3.125
  }

  lemma MeasurementExamples()
    ensures MeasurementPicofarads(0x0000_0000, 0) == 0.0
    ensures MeasurementPicofarads(0xFFFF_FF00, 0) == -1.0 / 524288.0
    ensures MeasurementPicofarads(0x8000_0000, 0) == -16.0
    ensures MeasurementPicofarads(0x0000_0000, 31) == 96.875
  {
    assert SignedMeasurement(0xFFFF_FF00) == -1;
    assert SignedMeasurement(0x8000_0000) == -0x80_0000;
  }
}
