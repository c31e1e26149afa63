/**
 * The mode sequencers. Each mode function of the driver selects a channel,
 * configures FR1 and CFR for the mode, stages a fixed, ordered list of
 * register writes and ends with one I/O update that makes them take effect.
 * A call is modelled as a plan: the list of operations it performs, each a
 * register write of a byte payload or the latch; rendering a plan gives the
 * events on the control lines.
 */
module Sequencer {
  import opened Bytes
  import opened Encoders
  import opened Wire
  import opened Transport
  import opened Control

  datatype Op = Write(addr: Byte, payload: seq<Byte>) | Latch

  /** FR1 as every mode writes it: PLL on, VCO gain high. */
  const Fr1Config: seq<Byte> := [0xD0, 0x00, 0x00]

  // CFR per mode.
  const SingleToneCfr: seq<Byte> := [0x00, 0x23, 0x35]
  const FrequencySweepCfr: seq<Byte> := [0x82, 0x43, 0x30]
  const PhaseSweepCfr: seq<Byte> := [0xC0, 0xC3, 0x30]
  const AmplitudeSweepCfr: seq<Byte> := [0x40, 0x43, 0x20]

  /** SRR: the fastest ramp rate, both directions. */
  const RampRate: seq<Byte> := [0xFF, 0xFF]

  /** The ACR baseline with the amplitude multiplier enabled (0x10 in byte 1), and the cleared one. */
  const AcrEnabled: seq<Byte> := [0x00, 0x10, 0x00]
  const AcrCleared: seq<Byte> := [0x00, 0x00, 0x00]

  /** The width in bytes of each register the driver writes; zero for any other address. */
  function Width(addr: Byte): nat {
    if addr == CSR then 1
    else if addr == FR1 || addr == CFR || addr == ACR then 3
    else if addr == CPOW0 || addr == SRR then 2
    else if addr == CFTW0 || addr == RDW || addr == FDW || addr == SweepEnd then 4
    else 0
  }

  /** A register write whose payload is exactly as wide as its register. */
  predicate WellSized(op: Op) {
    op.Write? && Width(op.addr) > 0 && |op.payload| == Width(op.addr)
  }

  /** ad9959_channel_sel_enable: one write of the channel's one-hot code to CSR. */
  function SelectChannel(ch: nat): (op: Op)
    requires ch < 4
    ensures op.Write? && op.addr == CSR && |op.payload| == 1
    ensures op.payload[0] == 0x10 * Pow2(ch)
  {
    ChannelCodeOneHot(ch);
    Write(CSR, [ChannelCode(ch)])
  }

  /**
   * The shape every mode call has: select the channel, write FR1, write CFR
   * with the mode's bytes, then only well-sized register writes, and the
   * latch as the last operation and the only one.
   */
  predicate ModeCall(plan: seq<Op>, ch: nat, cfr: seq<Byte>)
    requires ch < 4
  {
    && |plan| >= 4
    && plan[0] == SelectChannel(ch)
    && plan[1] == Write(FR1, Fr1Config)
    && plan[2] == Write(CFR, cfr)
    && plan[|plan| - 1] == Latch
    && forall i :: 0 <= i < |plan| - 1 ==> WellSized(plan[i])
  }

  // ---------------------------------------------------------------- the four modes

  /** ad9959_set_signal_out: single tone; amplitude, then phase, then frequency. */
  function FixedTonePlan(ch: nat, fre: nat, phase: U16, amp: U16): (plan: seq<Op>)
    requires ch < 4 && fre < SystemClock
    ensures ModeCall(plan, ch, SingleToneCfr) && |plan| == 7
  {
    U16PhaseConvertible(phase);
    [ SelectChannel(ch), Write(FR1, Fr1Config), Write(CFR, SingleToneCfr),
      Write(ACR, AcrBytes(amp, AcrEnabled)),
      Write(CPOW0, CpowBytes(phase)),
      Write(CFTW0, CftwBytes(fre)),
      Latch ]
  }

  /** The single-tone plan, operation by operation as the driver issues it. */
  lemma FixedToneInOrder(ch: nat, fre: nat, phase: U16, amp: U16)
    requires ch < 4 && fre < SystemClock
    ensures PhaseConvertible(phase) && FixedTonePlan(ch, fre, phase, amp) ==
      [SelectChannel(ch)] + [Write(FR1, Fr1Config)] + [Write(CFR, SingleToneCfr)]
      + [Write(ACR, AcrBytes(amp, AcrEnabled))] + [Write(CPOW0, CpowBytes(phase))]
      + [Write(CFTW0, CftwBytes(fre))] + [Latch]
  {
    U16PhaseConvertible(phase);
  }

  /**
   * ad9959_sweep_frequency: start and end frequency, rising and falling
   * steps (all four through the frequency encoder), ramp rate, amplitude, phase.
   */
  function FrequencySweepPlan(ch: nat, fre1: nat, fre2: nat, rdw: nat, fdw: nat, phase: U16, amp: U16): (plan: seq<Op>)
    requires ch < 4 && fre1 < SystemClock && fre2 < SystemClock && rdw < SystemClock && fdw < SystemClock
    ensures ModeCall(plan, ch, FrequencySweepCfr) && |plan| == 11
  {
    U16PhaseConvertible(phase);
    [ SelectChannel(ch), Write(FR1, Fr1Config), Write(CFR, FrequencySweepCfr),
      Write(CFTW0, CftwBytes(fre1)),
      Write(SweepEnd, CftwBytes(fre2)),
      Write(RDW, CftwBytes(rdw)),
      Write(FDW, CftwBytes(fdw)),
      Write(SRR, RampRate),
      Write(ACR, AcrBytes(amp, AcrEnabled)),
      Write(CPOW0, CpowBytes(phase)),
      Latch ]
  }

  /**
   * ad9959_sweep_phase as written: the start-phase write to CPOW0 sends the
   * first two bytes of the frequency buffer and the end-phase write sends all
   * four, so the computed phase words never reach the chip; the steps go
   * through the phase encoder into zeroed 4-byte buffers.
   */
  function PhaseSweepPlan(ch: nat, fre: nat, phase1: U16, phase2: U16, rdw: U16, fdw: U16, amp: U16): (plan: seq<Op>)
    requires ch < 4 && fre < SystemClock
    ensures ModeCall(plan, ch, PhaseSweepCfr) && |plan| == 11
  {
    U16PhaseConvertible(rdw);
    U16PhaseConvertible(fdw);
    var frequency := CftwBytes(fre);
    [ SelectChannel(ch), Write(FR1, Fr1Config), Write(CFR, PhaseSweepCfr),
      Write(CFTW0, frequency),
      Write(CPOW0, frequency[..2]),
      Write(SweepEnd, frequency),
      Write(RDW, CpowBytes(rdw) + [0, 0]),
      Write(FDW, CpowBytes(fdw) + [0, 0]),
      Write(SRR, RampRate),
      Write(ACR, AcrBytes(amp, AcrEnabled)),
      Latch ]
  }

  /**
   * ad9959_sweep_phase as evidently intended: the start phase word goes to
   * CPOW0 and the end phase word, in the zeroed 4-byte phase buffer, to the
   * end-of-sweep slot.
   */
  function PhaseSweepPlanIntended(ch: nat, fre: nat, phase1: U16, phase2: U16, rdw: U16, fdw: U16, amp: U16): (plan: seq<Op>)
    requires ch < 4 && fre < SystemClock
    ensures ModeCall(plan, ch, PhaseSweepCfr) && |plan| == 11
  {
    U16PhaseConvertible(phase1);
    U16PhaseConvertible(phase2);
    U16PhaseConvertible(rdw);
    U16PhaseConvertible(fdw);
    [ SelectChannel(ch), Write(FR1, Fr1Config), Write(CFR, PhaseSweepCfr),
      Write(CFTW0, CftwBytes(fre)),
      Write(CPOW0, CpowBytes(phase1)),
      Write(SweepEnd, CpowBytes(phase2) + [0, 0]),
      Write(RDW, CpowBytes(rdw) + [0, 0]),
      Write(FDW, CpowBytes(fdw) + [0, 0]),
      Write(SRR, RampRate),
      Write(ACR, AcrBytes(amp, AcrEnabled)),
      Latch ]
  }

  /**
   * ad9959_sweep_amplitude as written: start amplitude into ACR over a
   * cleared baseline, end amplitude and steps through the sweep encoder,
   * ramp rate, then CPOW0 from the frequency buffer before anything was
   * stored in it (stale: whatever the uninitialised buffer held), then the
   * frequency.
   */
  function AmplitudeSweepPlan(ch: nat, fre: nat, phase: U16, amp1: U16, amp2: U16, rdw: U16, fdw: U16, stale: seq<Byte>): (plan: seq<Op>)
    requires ch < 4 && fre < SystemClock && |stale| == 4
    ensures ModeCall(plan, ch, AmplitudeSweepCfr) && |plan| == 11
  {
    [ SelectChannel(ch), Write(FR1, Fr1Config), Write(CFR, AmplitudeSweepCfr),
      Write(ACR, AcrBytes(amp1, AcrCleared)),
      Write(SweepEnd, AmpSweepBytes(amp2)),
      Write(RDW, AmpSweepBytes(rdw)),
      Write(FDW, AmpSweepBytes(fdw)),
      Write(SRR, RampRate),
      Write(CPOW0, stale[..2]),
      Write(CFTW0, CftwBytes(fre)),
      Latch ]
  }

  /** ad9959_sweep_amplitude as evidently intended: the computed phase word goes to CPOW0. */
  function AmplitudeSweepPlanIntended(ch: nat, fre: nat, phase: U16, amp1: U16, amp2: U16, rdw: U16, fdw: U16): (plan: seq<Op>)
    requires ch < 4 && fre < SystemClock
    ensures ModeCall(plan, ch, AmplitudeSweepCfr) && |plan| == 11
  {
    U16PhaseConvertible(phase);
    [ SelectChannel(ch), Write(FR1, Fr1Config), Write(CFR, AmplitudeSweepCfr),
      Write(ACR, AcrBytes(amp1, AcrCleared)),
      Write(SweepEnd, AmpSweepBytes(amp2)),
      Write(RDW, AmpSweepBytes(rdw)),
      Write(FDW, AmpSweepBytes(fdw)),
      Write(SRR, RampRate),
      Write(CPOW0, CpowBytes(phase)),
      Write(CFTW0, CftwBytes(fre)),
      Latch ]
  }

  /** Issuing one more operation extends what was issued since a mark. */
  lemma Issue(before: seq<Op>, issued: seq<Op>, op: Op)
    ensures (before + issued) + [op] == before + (issued + [op])
  {
  }

  // Each plan, operation by operation as the driver issues it.

  lemma FrequencySweepInOrder(ch: nat, fre1: nat, fre2: nat, rdw: nat, fdw: nat, phase: U16, amp: U16)
    requires ch < 4 && fre1 < SystemClock && fre2 < SystemClock && rdw < SystemClock && fdw < SystemClock
    ensures PhaseConvertible(phase) && FrequencySweepPlan(ch, fre1, fre2, rdw, fdw, phase, amp) ==
      [SelectChannel(ch)] + [Write(FR1, Fr1Config)] + [Write(CFR, FrequencySweepCfr)]
      + [Write(CFTW0, CftwBytes(fre1))] + [Write(SweepEnd, CftwBytes(fre2))]
      + [Write(RDW, CftwBytes(rdw))] + [Write(FDW, CftwBytes(fdw))] + [Write(SRR, RampRate)]
      + [Write(ACR, AcrBytes(amp, AcrEnabled))] + [Write(CPOW0, CpowBytes(phase))] + [Latch]
  {
    U16PhaseConvertible(phase);
  }

  lemma PhaseSweepInOrder(ch: nat, fre: nat, phase1: U16, phase2: U16, rdw: U16, fdw: U16, amp: U16)
    requires ch < 4 && fre < SystemClock
    ensures PhaseConvertible(rdw) && PhaseConvertible(fdw)
      && PhaseSweepPlan(ch, fre, phase1, phase2, rdw, fdw, amp) ==
      [SelectChannel(ch)] + [Write(FR1, Fr1Config)] + [Write(CFR, PhaseSweepCfr)]
      + [Write(CFTW0, CftwBytes(fre))] + [Write(CPOW0, CftwBytes(fre)[..2])] + [Write(SweepEnd, CftwBytes(fre))]
      + [Write(RDW, CpowBytes(rdw) + [0, 0])] + [Write(FDW, CpowBytes(fdw) + [0, 0])] + [Write(SRR, RampRate)]
      + [Write(ACR, AcrBytes(amp, AcrEnabled))] + [Latch]
  {
    U16PhaseConvertible(rdw);
    U16PhaseConvertible(fdw);
  }

  lemma AmplitudeSweepInOrder(ch: nat, fre: nat, phase: U16, amp1: U16, amp2: U16, rdw: U16, fdw: U16, stale: seq<Byte>)
    requires ch < 4 && fre < SystemClock && |stale| == 4
    ensures AmplitudeSweepPlan(ch, fre, phase, amp1, amp2, rdw, fdw, stale) ==
      [SelectChannel(ch)] + [Write(FR1, Fr1Config)] + [Write(CFR, AmplitudeSweepCfr)]
      + [Write(ACR, AcrBytes(amp1, AcrCleared))] + [Write(SweepEnd, AmpSweepBytes(amp2))]
      + [Write(RDW, AmpSweepBytes(rdw))] + [Write(FDW, AmpSweepBytes(fdw))] + [Write(SRR, RampRate)]
      + [Write(CPOW0, stale[..2])] + [Write(CFTW0, CftwBytes(fre))] + [Latch]
  {
  }

  // ---------------------------------------------------------------- what the registers carry

  /** The 10-bit amplitude held in the low bits of an ACR payload. */
  function AcrAmplitude(r: seq<Byte>): nat
    requires |r| == 3
  {
    (r[1] % 4) as int * 0x100 + r[2]
  }

  /** The 10-bit amplitude held in the top bits of a sweep amplitude payload. */
  function SweepAmplitude(r: seq<Byte>): nat
    requires |r| == 4
  {
    r[0] as int * 4 + r[1] / 0x40
  }

  /** A sweep amplitude payload has nothing below its top ten bits. */
  predicate SweepLayout(r: seq<Byte>) {
    |r| == 4 && r[1] % 0x40 == 0 && r[2] == 0 && r[3] == 0
  }

  /**
   * A single tone stages, in this order, ACR with the multiplier enabled and
   * the 10-bit amplitude, CPOW0 whose 16 bits read back the phase word (the
   * exact word below a full turn), and CFTW0 reading back the frequency word.
   */
  lemma FixedToneCarries(ch: nat, fre: nat, phase: U16, amp: U16)
    requires ch < 4 && fre < SystemClock
    ensures var p := FixedTonePlan(ch, fre, phase, amp);
      && p[3].addr == ACR && p[4].addr == CPOW0 && p[5].addr == CFTW0
      && p[3].payload[0] == 0 && p[3].payload[1] / 4 == 4 && AcrAmplitude(p[3].payload) == amp % 0x400
      && Be16(p[4].payload) == PhaseWord(phase) % 0x1_0000
      && (phase < 360 ==> Be16(p[4].payload) == PhaseWord(phase))
      && Be32(p[5].payload) == FrequencyWord(fre)
  {
    AcrKeepsFlags(amp, AcrEnabled);
    if phase < 360 {
      CpowWithinOneTurn(phase);
    }
  }

  /**
   * A frequency sweep stages the start word in CFTW0, the end word in the
   * end-of-sweep slot, the rising and falling steps as frequency words, the
   * fastest ramp rate, the enabled amplitude and the phase.
   */
  lemma FrequencySweepCarries(ch: nat, fre1: nat, fre2: nat, rdw: nat, fdw: nat, phase: U16, amp: U16)
    requires ch < 4 && fre1 < SystemClock && fre2 < SystemClock && rdw < SystemClock && fdw < SystemClock
    ensures var p := FrequencySweepPlan(ch, fre1, fre2, rdw, fdw, phase, amp);
      && p[3].addr == CFTW0 && Be32(p[3].payload) == FrequencyWord(fre1)
      && p[4].addr == SweepEnd && Be32(p[4].payload) == FrequencyWord(fre2)
      && p[5].addr == RDW && Be32(p[5].payload) == FrequencyWord(rdw)
      && p[6].addr == FDW && Be32(p[6].payload) == FrequencyWord(fdw)
      && p[7] == Write(SRR, RampRate)
      && p[8].addr == ACR && p[8].payload[0] == 0 && p[8].payload[1] / 4 == 4 && AcrAmplitude(p[8].payload) == amp % 0x400
      && p[9].addr == CPOW0 && Be16(p[9].payload) == PhaseWord(phase) % 0x1_0000
  {
    AcrKeepsFlags(amp, AcrEnabled);
  }

  /**
   * A phase sweep as written stages the frequency in CFTW0, the phase steps
   * in the top half of RDW and FDW (bottom half zero), the ramp rate and the
   * amplitude; but CPOW0 and the end-of-sweep slot receive bytes of the
   * frequency word, whatever the start and end phases.
   */
  lemma PhaseSweepCarries(ch: nat, fre: nat, phase1: U16, phase2: U16, rdw: U16, fdw: U16, amp: U16)
    requires ch < 4 && fre < SystemClock
    ensures var p := PhaseSweepPlan(ch, fre, phase1, phase2, rdw, fdw, amp);
      && p[3].addr == CFTW0 && Be32(p[3].payload) == FrequencyWord(fre)
      && p[4] == Write(CPOW0, CftwBytes(fre)[..2])
      && p[5] == Write(SweepEnd, CftwBytes(fre))
      && p[6].addr == RDW && Be16(p[6].payload[..2]) == PhaseWord(rdw) % 0x1_0000 && p[6].payload[2..] == [0, 0]
      && p[7].addr == FDW && Be16(p[7].payload[..2]) == PhaseWord(fdw) % 0x1_0000 && p[7].payload[2..] == [0, 0]
      && p[8] == Write(SRR, RampRate)
      && p[9].addr == ACR && p[9].payload[0] == 0 && p[9].payload[1] / 4 == 4 && AcrAmplitude(p[9].payload) == amp % 0x400
  {
    AcrKeepsFlags(amp, AcrEnabled);
    U16PhaseConvertible(rdw);
    U16PhaseConvertible(fdw);
    var p := PhaseSweepPlan(ch, fre, phase1, phase2, rdw, fdw, amp);
    assert p[6].payload[..2] == CpowBytes(rdw);
    assert p[7].payload[..2] == CpowBytes(fdw);
  }

  /** As written, a phase sweep does not depend on its start and end phases at all. */
  lemma PhaseSweepIgnoresPhases(ch: nat, fre: nat, phase1: U16, phase2: U16, phase1': U16, phase2': U16, rdw: U16, fdw: U16, amp: U16)
    requires ch < 4 && fre < SystemClock
    ensures PhaseSweepPlan(ch, fre, phase1, phase2, rdw, fdw, amp) == PhaseSweepPlan(ch, fre, phase1', phase2', rdw, fdw, amp)
  {
  }

  /**
   * The discrepancy, on one input: at 0 Hz with a start phase of 180 degrees
   * the chip's CPOW0 receives {0x00, 0x00}, where the phase encoder gives
   * {0x20, 0x00}; the end-of-sweep slot receives zero, not the end phase.
   */
  lemma PhaseSweepDropsStartPhase(ch: nat, rdw: U16, fdw: U16, amp: U16)
    requires ch < 4
    ensures var p := PhaseSweepPlan(ch, 0, 180, 90, rdw, fdw, amp);
      p[4] == Write(CPOW0, [0, 0]) && CpowBytes(180) == [0x20, 0x00]
      && p[5] == Write(SweepEnd, [0, 0, 0, 0]) && CpowBytes(90) == [0x10, 0x00]
  {
    CpowHalfTurn();
    var zero := CftwBytes(0);
    assert FrequencyWord(0) == 0;
    assert zero == [0, 0, 0, 0];
    assert zero[..2] == [0, 0];
    assert PhaseWord(90) == 0x1000;
  }

  /**
   * The intended phase sweep: CPOW0 reads back the start phase word and the
   * end-of-sweep slot carries the end phase word in its top half, exactly
   * so below a full turn; the rest of the call is unchanged.
   */
  lemma PhaseSweepIntendedCarries(ch: nat, fre: nat, phase1: U16, phase2: U16, rdw: U16, fdw: U16, amp: U16)
    requires ch < 4 && fre < SystemClock
    ensures var p := PhaseSweepPlanIntended(ch, fre, phase1, phase2, rdw, fdw, amp);
      var q := PhaseSweepPlan(ch, fre, phase1, phase2, rdw, fdw, amp);
      && p[4].addr == CPOW0 && (phase1 < 360 ==> Be16(p[4].payload) == PhaseWord(phase1))
      && p[5].addr == SweepEnd && p[5].payload[2..] == [0, 0]
      && (phase2 < 360 ==> Be16(p[5].payload[..2]) == PhaseWord(phase2))
      && forall i :: 0 <= i < 11 && i != 4 && i != 5 ==> p[i] == q[i]
  {
    U16PhaseConvertible(phase2);
    var p := PhaseSweepPlanIntended(ch, fre, phase1, phase2, rdw, fdw, amp);
    assert p[5].payload[..2] == CpowBytes(phase2);
    if phase1 < 360 {
      CpowWithinOneTurn(phase1);
    }
    if phase2 < 360 {
      CpowWithinOneTurn(phase2);
    }
  }

  /** The intended phase sweep reaches the chip with distinct start phases giving distinct CPOW0 payloads. */
  lemma PhaseSweepIntendedSeesStartPhase(ch: nat, fre: nat, phase1: U16, phase1': U16, phase2: U16, rdw: U16, fdw: U16, amp: U16)
    requires ch < 4 && fre < SystemClock && phase1 < 360 && phase1' < 360 && phase1 != phase1'
    ensures PhaseSweepPlanIntended(ch, fre, phase1, phase2, rdw, fdw, amp)[4]
         != PhaseSweepPlanIntended(ch, fre, phase1', phase2, rdw, fdw, amp)[4]
  {
    PhaseSweepIntendedCarries(ch, fre, phase1, phase2, rdw, fdw, amp);
    PhaseSweepIntendedCarries(ch, fre, phase1', phase2, rdw, fdw, amp);
    if phase1 < phase1' {
      PhaseWordDistinct(phase1, phase1');
    } else {
      PhaseWordDistinct(phase1', phase1);
    }
  }

  /** Distinct whole-degree phases below a turn have distinct words (one degree is over 45 steps). */
  lemma PhaseWordDistinct(a: nat, b: nat)
    requires a < b
    ensures PhaseWord(a) < PhaseWord(b)
  {
    assert PhaseWord(a) * 360 <= a * 0x4000;
    assert (a + 1) * 0x4000 <= b * 0x4000;
    assert b * 0x4000 < (PhaseWord(b) + 1) * 360;
  }

  /**
   * An amplitude sweep stages the start amplitude in ACR over the cleared
   * baseline, the end amplitude and the steps in the sweep layout, the ramp
   * rate, and the frequency last; CPOW0 receives the two stale bytes.
   */
  lemma AmplitudeSweepCarries(ch: nat, fre: nat, phase: U16, amp1: U16, amp2: U16, rdw: U16, fdw: U16, stale: seq<Byte>)
    requires ch < 4 && fre < SystemClock && |stale| == 4
    ensures var p := AmplitudeSweepPlan(ch, fre, phase, amp1, amp2, rdw, fdw, stale);
      && p[3].addr == ACR && p[3].payload[0] == 0 && p[3].payload[1] < 4 && AcrAmplitude(p[3].payload) == amp1 % 0x400
      && p[4].addr == SweepEnd && SweepLayout(p[4].payload) && SweepAmplitude(p[4].payload) == amp2 % 0x400
      && p[5].addr == RDW && SweepLayout(p[5].payload) && SweepAmplitude(p[5].payload) == rdw % 0x400
      && p[6].addr == FDW && SweepLayout(p[6].payload) && SweepAmplitude(p[6].payload) == fdw % 0x400
      && p[7] == Write(SRR, RampRate)
      && p[8] == Write(CPOW0, stale[..2])
      && p[9].addr == CFTW0 && Be32(p[9].payload) == FrequencyWord(fre)
  {
    AcrKeepsFlags(amp1, AcrCleared);
  }

  /**
   * Identical arguments give identical calls except for the stale CPOW0
   * payload: two calls that differ only in what the buffer held agree on
   * every operation but the CPOW0 write.
   */
  lemma AmplitudeSweepStaleOnlyAtCpow(ch: nat, fre: nat, phase: U16, amp1: U16, amp2: U16, rdw: U16, fdw: U16, stale: seq<Byte>, stale': seq<Byte>)
    requires ch < 4 && fre < SystemClock && |stale| == 4 && |stale'| == 4
    ensures var p := AmplitudeSweepPlan(ch, fre, phase, amp1, amp2, rdw, fdw, stale);
      var q := AmplitudeSweepPlan(ch, fre, phase, amp1, amp2, rdw, fdw, stale');
      && p[8].addr == q[8].addr == CPOW0
      && (forall i :: 0 <= i < 11 && i != 8 ==> p[i] == q[i])
      && (p == q <==> stale[..2] == stale'[..2])
  {
    var p := AmplitudeSweepPlan(ch, fre, phase, amp1, amp2, rdw, fdw, stale);
    var q := AmplitudeSweepPlan(ch, fre, phase, amp1, amp2, rdw, fdw, stale');
    if p == q {
      assert p[8].payload == q[8].payload;
    }
  }

  /**
   * As written, whatever the stale bytes, the CPOW0 payload cannot be right
   * for both 0 and 180 degrees: it is the same for both, while the phase
   * encoder gives {0x00, 0x00} and {0x20, 0x00}.
   */
  lemma AmplitudeSweepDropsPhase(stale: seq<Byte>)
    requires |stale| == 4
    ensures var p0 := AmplitudeSweepPlan(0, 0, 0, 1023, 0, 1, 1, stale);
      var p180 := AmplitudeSweepPlan(0, 0, 180, 1023, 0, 1, 1, stale);
      p0[8] == p180[8] && (p0[8].payload != CpowBytes(0) || p180[8].payload != CpowBytes(180))
  {
    CpowHalfTurn();
    CpowFullTurnNotWrapped();
  }

  /** The intended amplitude sweep sends the phase word, and differs from the written one only there. */
  lemma AmplitudeSweepIntendedCarries(ch: nat, fre: nat, phase: U16, amp1: U16, amp2: U16, rdw: U16, fdw: U16, stale: seq<Byte>)
    requires ch < 4 && fre < SystemClock && |stale| == 4
    ensures var p := AmplitudeSweepPlanIntended(ch, fre, phase, amp1, amp2, rdw, fdw);
      var q := AmplitudeSweepPlan(ch, fre, phase, amp1, amp2, rdw, fdw, stale);
      && p[8].addr == CPOW0 && Be16(p[8].payload) == PhaseWord(phase) % 0x1_0000
      && (phase < 360 ==> Be16(p[8].payload) == PhaseWord(phase))
      && (forall i :: 0 <= i < 11 && i != 8 ==> p[i] == q[i])
  {
    if phase < 360 {
      CpowWithinOneTurn(phase);
    }
  }

  // ---------------------------------------------------------------- rendering

  /**
   * The events of one operation: a register write is performed by the write
   * of the selected backend, a latch by the update pulse.
   */
  function RenderOp(hardwareSpi: bool, op: Op): seq<Event> {
    match op
    case Write(addr, payload) => WriteFrame(hardwareSpi, addr, payload)
    case Latch => UpdatePulse()
  }

  /** The events of a plan: its operations' events, operation after operation, in order. */
  function Render(hardwareSpi: bool, plan: seq<Op>): seq<Event>
    decreases |plan|
  {
    if plan == [] then [] else RenderOp(hardwareSpi, plan[0]) + Render(hardwareSpi, plan[1..])
  }

  /** The bytes one operation addresses to the chip: a write's address followed by its payload. */
  function OpBytes(op: Op): seq<Byte> {
    if op.Write? then [op.addr] + op.payload else []
  }

  /** The bytes a plan addresses to the chip, in order. */
  function Stream(plan: seq<Op>): seq<Byte>
    decreases |plan|
  {
    if plan == [] then [] else OpBytes(plan[0]) + Stream(plan[1..])
  }

  /** The number of latches in a plan. */
  function Latches(plan: seq<Op>): nat
    decreases |plan|
  {
    if plan == [] then 0 else (if plan[0].Latch? then 1 else 0) + Latches(plan[1..])
  }

  /** n update pulses' worth of UD levels. */
  function Pulses(n: nat): seq<bool> {
    if n == 0 then [] else [false, true, false] + Pulses(n - 1)
  }

  /** A plan of one operation. */
  lemma RenderOne(hardwareSpi: bool, op: Op)
    ensures Render(hardwareSpi, [op]) == RenderOp(hardwareSpi, op)
    ensures Stream([op]) == OpBytes(op)
    ensures Latches([op]) == if op.Latch? then 1 else 0
  {
    assert [op][1..] == [];
  }

  /** Rendering splits over concatenated plans. */
  lemma {:induction false} RenderAppend(hardwareSpi: bool, a: seq<Op>, b: seq<Op>)
    ensures Render(hardwareSpi, a + b) == Render(hardwareSpi, a) + Render(hardwareSpi, b)
    decreases |a|
  {
    if a == [] {
      assert a + b == b;
    } else {
      assert (a + b)[0] == a[0];
      assert (a + b)[1..] == a[1..] + b;
      RenderAppend(hardwareSpi, a[1..], b);
    }
  }

  /** Performing one more operation after a plan renders that operation after the plan. */
  lemma RenderSnoc(done: seq<Event>, hardwareSpi: bool, plan: seq<Op>, op: Op)
    ensures (done + Render(hardwareSpi, plan)) + RenderOp(hardwareSpi, op) == done + Render(hardwareSpi, plan + [op])
  {
    RenderLast(hardwareSpi, plan, op);
    Associative(done, Render(hardwareSpi, plan), RenderOp(hardwareSpi, op));
  }

  lemma RenderLast(hardwareSpi: bool, plan: seq<Op>, op: Op)
    ensures Render(hardwareSpi, plan + [op]) == Render(hardwareSpi, plan) + RenderOp(hardwareSpi, op)
  {
    RenderAppend(hardwareSpi, plan, [op]);
    RenderOne(hardwareSpi, op);
  }

  lemma Associative(a: seq<Event>, b: seq<Event>, c: seq<Event>)
    ensures (a + b) + c == a + (b + c)
  {
  }

  /** Performing a plan after others renders it after theirs. */
  lemma RenderExtends(done: seq<Event>, hardwareSpi: bool, before: seq<Op>, plan: seq<Op>)
    ensures done + Render(hardwareSpi, before + plan) == (done + Render(hardwareSpi, before)) + Render(hardwareSpi, plan)
  {
    RenderAppend(hardwareSpi, before, plan);
  }

  /** The byte stream and the latch count split over concatenated plans. */
  lemma {:induction false} StreamAppend(a: seq<Op>, b: seq<Op>)
    ensures Stream(a + b) == Stream(a) + Stream(b)
    ensures Latches(a + b) == Latches(a) + Latches(b)
    decreases |a|
  {
    if a == [] {
      assert a + b == b;
    } else {
      assert (a + b)[0] == a[0];
      assert (a + b)[1..] == a[1..] + b;
      StreamAppend(a[1..], b);
    }
  }

  /** UD moves only in the latch's events: a write's frame leaves it alone. */
  lemma OpUpdateLine(hardwareSpi: bool, op: Op)
    ensures Trace(RenderOp(hardwareSpi, op), UD) == if op.Latch? then [false, true, false] else []
  {
    if op.Write? {
      WriteFrameReceives(hardwareSpi, op.addr, op.payload, Lines(true, false, false));
    } else {
      UpdatePulseLines(UD);
    }
  }

  /** What the chip clocks in during one operation's events. */
  lemma OpReceives(hardwareSpi: bool, op: Op, l: Lines)
    ensures Samples(RenderOp(hardwareSpi, op), l) == BitsOf(OpBytes(op))
    ensures Selected(RenderOp(hardwareSpi, op), l)
  {
    if op.Write? {
      WriteFrameReceives(hardwareSpi, op.addr, op.payload, l);
    } else {
      UpdatePulseLatchesOnce(false, l);
    }
  }

  /**
   * Whatever the backend and the line state before, the chip clocks in
   * exactly the bits of the plan's byte stream, each with chip select low.
   */
  lemma {:induction false} RenderReceives(hardwareSpi: bool, plan: seq<Op>, l: Lines)
    ensures Samples(Render(hardwareSpi, plan), l) == BitsOf(Stream(plan))
    ensures Selected(Render(hardwareSpi, plan), l)
    decreases |plan|
  {
    if plan != [] {
      var op := plan[0];
      var a, b := RenderOp(hardwareSpi, op), Render(hardwareSpi, plan[1..]);
      RunAppend(a, b, l);
      var l' := Run(a, l);
      RenderReceives(hardwareSpi, plan[1..], l');
      OpReceives(hardwareSpi, op, l);
      BitsOfAppend(OpBytes(op), Stream(plan[1..]));
    }
  }

  /** The chip assembles the plan's byte stream: addresses and payloads, in order. */
  lemma ChipReceivesStream(hardwareSpi: bool, plan: seq<Op>, l: Lines)
    ensures Samples(Render(hardwareSpi, plan), l) == BitsOf(Stream(plan))
    ensures Pack(Samples(Render(hardwareSpi, plan), l)) == Stream(plan)
  {
    RenderReceives(hardwareSpi, plan, l);
    PackBitsOf(Stream(plan));
  }

  /** UD only moves at the latches: one low-high-low pulse per latch. */
  lemma {:induction false} RenderUpdateLine(hardwareSpi: bool, plan: seq<Op>)
    ensures Trace(Render(hardwareSpi, plan), UD) == Pulses(Latches(plan))
    decreases |plan|
  {
    if plan != [] {
      var op, rest := plan[0], plan[1..];
      var a, b := RenderOp(hardwareSpi, op), Render(hardwareSpi, rest);
      assert Render(hardwareSpi, plan) == a + b;
      TraceAppend(a, b, UD);
      RenderUpdateLine(hardwareSpi, rest);
      OpUpdateLine(hardwareSpi, op);
      LatchStep(plan);
    }
  }

  /** The UD levels of a plan's latches, one operation at a time. */
  lemma LatchStep(plan: seq<Op>)
    requires plan != []
    ensures Pulses(Latches(plan)) == (if plan[0].Latch? then [false, true, false] else []) + Pulses(Latches(plan[1..]))
  {
    if plan[0].Latch? {
      assert Latches(plan) == 1 + Latches(plan[1..]);
    }
  }

  /** A run of register writes holds no latch. */
  lemma {:induction false} WritesOnly(plan: seq<Op>)
    requires forall i :: 0 <= i < |plan| ==> plan[i].Write?
    ensures Latches(plan) == 0
    decreases |plan|
  {
    if plan != [] {
      assert plan[0].Write?;
      assert forall i :: 0 <= i < |plan[1..]| ==> plan[1..][i] == plan[i + 1];
      WritesOnly(plan[1..]);
    }
  }

  /**
   * A mode call latches exactly once, after all its writes: whatever UD's
   * level before, the line shows one rising edge, and the rendering is the writes' events followed
   * by the update pulse.
   */
  lemma ModeCallLatchesOnce(hardwareSpi: bool, plan: seq<Op>, ch: nat, cfr: seq<Byte>, before: bool)
    requires ch < 4 && ModeCall(plan, ch, cfr)
    ensures Latches(plan) == 1
    ensures Trace(Render(hardwareSpi, plan), UD) == [false, true, false]
    ensures RisingEdges(Trace(Render(hardwareSpi, plan), UD), before) == 1
    ensures Render(hardwareSpi, plan) == Render(hardwareSpi, plan[..|plan| - 1]) + UpdatePulse()
  {
    ModeCallEndsWithLatch(hardwareSpi, plan, ch, cfr);
    RenderUpdateLine(hardwareSpi, plan);
    PulsesOne();
    OnePulse(before);
  }

  lemma PulsesOne()
    ensures Pulses(1) == [false, true, false]
  {
    assert Pulses(0) == [];
  }

  /** The one latch of a mode call is its last operation, rendered as the update pulse. */
  lemma ModeCallEndsWithLatch(hardwareSpi: bool, plan: seq<Op>, ch: nat, cfr: seq<Byte>)
    requires ch < 4 && ModeCall(plan, ch, cfr)
    ensures Latches(plan) == 1
    ensures Render(hardwareSpi, plan) == Render(hardwareSpi, plan[..|plan| - 1]) + UpdatePulse()
  {
    var front := plan[..|plan| - 1];
    assert plan == front + [Latch];
    assert forall i :: 0 <= i < |front| ==> front[i] == plan[i] && WellSized(plan[i]);
    WritesOnly(front);
    RenderAppend(hardwareSpi, front, [Latch]);
    StreamAppend(front, [Latch]);
    RenderOne(hardwareSpi, Latch);
  }

  /**
   * The byte stream of a mode call starts with the channel select, FR1 and
   * the mode's CFR, each with its address.
   */
  lemma ModeCallStreamStart(plan: seq<Op>, ch: nat, cfr: seq<Byte>)
    requires ch < 4 && ModeCall(plan, ch, cfr)
    ensures Stream(plan) == [CSR, ChannelCode(ch)] + ([FR1] + Fr1Config) + ([CFR] + cfr) + Stream(plan[3..])
  {
    StreamThree(plan);
  }

  /** The stream of a plan of at least three operations, the first three taken apart. */
  lemma StreamThree(plan: seq<Op>)
    requires |plan| >= 3
    ensures Stream(plan) == OpBytes(plan[0]) + OpBytes(plan[1]) + OpBytes(plan[2]) + Stream(plan[3..])
  {
    var a, b, c, rest := OpBytes(plan[0]), OpBytes(plan[1]), OpBytes(plan[2]), Stream(plan[3..]);
    assert plan[2..][1..] == plan[3..];
    assert Stream(plan[2..]) == c + rest;
    assert plan[1..][1..] == plan[2..];
    assert Stream(plan[1..]) == b + (c + rest);
    assert Stream(plan) == a + (b + (c + rest));
    BytesRegroup(a, b, c, rest);
  }

  lemma BytesRegroup(a: seq<Byte>, b: seq<Byte>, c: seq<Byte>, d: seq<Byte>)
    ensures a + (b + (c + d)) == a + b + c + d
  {
  }
}
