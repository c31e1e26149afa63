/**
 * Register encoders of the AD9959 driver: engineering units to the bytes of
 * the frequency tuning word (CFTW0), the phase offset word (CPOW0), the
 * amplitude control register (ACR) and the amplitude word used by the
 * amplitude sweep. Each encoder is a pure function giving the bytes, and a
 * method that stores them into the caller's buffer as the driver does.
 *
 * The driver computes with `double`; here the arithmetic is exact over the
 * integers, frequency being a whole number of Hz.
 */
module Encoders {
  import opened Bytes

  /** System clock of the chip in Hz (25 MHz reference times the PLL). */
  const SystemClock: nat := 500_000_000

  const TwoTo32: nat := 0x1_0000_0000

  // ---------------------------------------------------------------- frequency

  /**
   * The 32-bit frequency tuning word fre * 2^32 / SystemClock, truncated
   * toward zero: the word is the largest whose frequency does not exceed fre.
   */
  function FrequencyWord(fre: nat): (w: U32)
    requires fre < SystemClock
    ensures w * SystemClock <= fre * TwoTo32 < (w + 1) * SystemClock
  {
    fre * TwoTo32 / SystemClock
  }

  /** The four CFTW0 bytes, high byte first. Reading them back gives the tuning word. */
  function CftwBytes(fre: nat): (r: seq<Byte>)
    requires fre < SystemClock
    ensures |r| == 4 && Be32(r) == FrequencyWord(fre)
  {
    var w := FrequencyWord(fre);
    Be32Split(w);
    [Low8(w / 0x100_0000), Low8(w / 0x1_0000), Low8(w / 0x100), Low8(w)]
  }

  /**
   * The bytes sent for fre stand for a word whose frequency is within one
   * least significant step (SystemClock / 2^32 Hz, about 0.116 Hz) below fre.
   */
  lemma CftwWithinOneStep(fre: nat)
    requires fre < SystemClock
    ensures var w := Be32(CftwBytes(fre));
      w * SystemClock <= fre * TwoTo32 < (w + 1) * SystemClock
  {
  }

  /** 100 MHz is one fifth of the clock: the word 0x33333333. */
  lemma CftwHundredMegahertz()
    ensures CftwBytes(100_000_000) == [0x33, 0x33, 0x33, 0x33]
  {
    assert FrequencyWord(100_000_000) == 0x3333_3333;
  }

  /** The driver's store of the frequency word into a 4-byte buffer. */
  method GetCftw0Data(fre: nat, buffer: array<Byte>)
    requires fre < SystemClock && 4 <= buffer.Length
    modifies buffer
    ensures buffer[..4] == CftwBytes(fre)
    ensures buffer[4..] == old(buffer[4..])
  {
    var value := fre * TwoTo32 / SystemClock;
    buffer[0] := Low8(value / 0x100_0000);
    buffer[1] := Low8(value / 0x1_0000);
    buffer[2] := Low8(value / 0x100);
    buffer[3] := Low8(value);
  }

  // ---------------------------------------------------------------- phase

  /**
   * The phase word phase * 2^14 / 360, truncated toward zero: the number of
   * whole 2^-14 turns in phase degrees. No reduction modulo a turn is made.
   */
  function PhaseWord(phase: nat): (w: nat)
    ensures w * 360 <= phase * 0x4000 < (w + 1) * 360
  {
    phase * 0x4000 / 360
  }

  /** The phase word fits the driver's uint32_t conversion (otherwise the cast is undefined). */
  predicate PhaseConvertible(phase: nat) {
    PhaseWord(phase) < TwoTo32
  }

  /** Every uint16_t phase the mode functions pass is convertible. */
  lemma U16PhaseConvertible(phase: U16)
    ensures PhaseConvertible(phase)
  {
  }

  /**
   * The two CPOW0 bytes: bits 15..8 and 7..0 of the phase word. Reading them
   * back gives the phase word modulo 2^16 (the high byte is cast to uint8_t).
   */
  function CpowBytes(phase: nat): (r: seq<Byte>)
    requires PhaseConvertible(phase)
    ensures |r| == 2 && Be16(r) == PhaseWord(phase) % 0x1_0000
  {
    var w := PhaseWord(phase);
    Be16Split(w);
    [Low8(w / 0x100), Low8(w)]
  }

  /**
   * Below a full turn the word takes 14 bits: the top two bits of the high
   * byte are clear and the bytes read back to the word exactly.
   */
  lemma CpowWithinOneTurn(phase: nat)
    requires phase < 360
    ensures PhaseConvertible(phase)
    ensures PhaseWord(phase) < 0x4000
    ensures CpowBytes(phase)[0] < 0x40
    ensures Be16(CpowBytes(phase)) == PhaseWord(phase)
  {
    assert phase * 0x4000 < 360 * 0x4000;
  }

  /** 180 degrees is half a turn: the word 0x2000. */
  lemma CpowHalfTurn()
    ensures CpowBytes(180) == [0x20, 0x00]
  {
    assert PhaseWord(180) == 0x2000;
  }

  /** A full turn is not reduced: 360 degrees gives 0x4000, unlike 0 degrees. */
  lemma CpowFullTurnNotWrapped()
    ensures CpowBytes(360) == [0x40, 0x00]
    ensures CpowBytes(0) == [0x00, 0x00]
  {
    assert PhaseWord(360) == 0x4000;
    assert PhaseWord(0) == 0;
  }

  /** The driver's store of the phase word into the first two bytes of a buffer. */
  method GetCpow0Data(phase: nat, buffer: array<Byte>)
    requires PhaseConvertible(phase) && 2 <= buffer.Length
    modifies buffer
    ensures buffer[..2] == CpowBytes(phase)
    ensures buffer[2..] == old(buffer[2..])
  {
    var value := phase * 0x4000 / 360;
    buffer[0] := Low8(value / 0x100);
    buffer[1] := Low8(value);
  }

  // ---------------------------------------------------------------- amplitude

  /**
   * The ACR bytes for amp over a caller-supplied baseline: the 10-bit
   * amplitude amp & 0x3FF goes to the low two bits of byte 1 (OR-ed in, so
   * the flag bits of the baseline survive) and to byte 2; byte 0 is kept.
   */
  function AcrBytes(amp: U16, base: seq<Byte>): (r: seq<Byte>)
    requires |base| == 3
    ensures |r| == 3
    ensures r[0] == base[0]
    ensures r[1] / 4 == base[1] / 4
    ensures r[1] % 4 == Or(base[1] % 4, (amp % 0x400) / 0x100)
    ensures r[2] == amp % 0x100
  {
    var value := amp % 0x400;
    OrByte(base[1], value / 0x100);
    OrLowTwoBits(base[1], value / 0x100);
    LowByteOfTenBits(amp);
    [base[0], Or(base[1], value / 0x100), Low8(value)]
  }

  /** Over an all-zero baseline the bytes carry exactly the 10-bit amplitude. */
  lemma AcrFromZeroBaseline(amp: U16)
    ensures var r := AcrBytes(amp, [0, 0, 0]);
      r[0] == 0 && r[1] < 4 && r[1] as int * 0x100 + r[2] == amp % 0x400
  {
    OrZero((amp % 0x400) / 0x100);
  }

  /**
   * Over a baseline whose byte 1 has its low two bits clear (both baselines
   * the driver uses), byte 1 is the baseline plus the amplitude's bits 9..8,
   * so the flag bits survive and the low ten bits read back the amplitude.
   */
  lemma AcrKeepsFlags(amp: U16, base: seq<Byte>)
    requires |base| == 3 && base[1] % 4 == 0
    ensures var r := AcrBytes(amp, base);
      r[1] == base[1] + (amp % 0x400) / 0x100 && (r[1] % 4) as int * 0x100 + r[2] == amp % 0x400
  {
    OrZero((amp % 0x400) / 0x100);
  }

  /** Full scale over the driver's usual baseline {0x00, 0x10, 0x00}. */
  lemma AcrFullScale()
    ensures AcrBytes(1023, [0x00, 0x10, 0x00]) == [0x00, 0x13, 0xFF]
  {
    OrZero(0);
    var r := AcrBytes(1023, [0x00, 0x10, 0x00]);
    assert r[1] / 4 == 4;
    assert r[1] % 4 == Or(0, 3);
  }

  /** The driver's in-place update of a caller's 3-byte ACR buffer. */
  method GetAcrData(amp: U16, buffer: array<Byte>)
    requires 3 <= buffer.Length
    modifies buffer
    ensures buffer[..3] == AcrBytes(amp, old(buffer[..3]))
    ensures buffer[3..] == old(buffer[3..])
  {
    var value := amp % 0x400;
    buffer[0] := buffer[0];
    OrByte(buffer[1], value / 0x100);
    buffer[1] := Or(buffer[1], value / 0x100);
    buffer[2] := Low8(value);
  }

  /**
   * The amplitude word of the sweep registers: the 10-bit amplitude sits in
   * the top ten bits of a 4-byte word (byte 0 its bits 9..2, the top two bits
   * of byte 1 its bits 1..0), the rest zero.
   */
  function AmpSweepBytes(amp: U16): (r: seq<Byte>)
    ensures |r| == 4
    ensures r[0] as int * 4 + r[1] / 0x40 == amp % 0x400
    ensures r[1] % 0x40 == 0 && r[2] == 0 && r[3] == 0
  {
    var value := amp % 0x400;
    [Low8(value / 4), Low8(value * 0x40), 0, 0]
  }

  /** The driver's store of the amplitude sweep word into a 4-byte buffer. */
  method GetAmpData(amp: U16, buffer: array<Byte>)
    requires 4 <= buffer.Length
    modifies buffer
    ensures buffer[..4] == AmpSweepBytes(amp)
    ensures buffer[4..] == old(buffer[4..])
  {
    var value := amp % 0x400;
    buffer[0] := Low8(value / 4);
    buffer[1] := Low8(value * 0x40);
    buffer[2] := 0;
    buffer[3] := 0;
  }
}
