/**
 * The driver as the firmware runs it: an object owning the control lines,
 * whose only state is the log of what it has done to them. Every function
 * of the driver is a method appending to the log; each is proved to append
 * exactly the events of its specification in the other modules, so what
 * those modules prove about the events holds of the driver.
 */
module Driver {
  import opened Bytes
  import opened Encoders
  import opened Wire
  import opened Transport
  import opened Control
  import opened Sequencer

  class Ad9959 {
    /** AD9959_USE_HARDWARE_SPI: register writes go through the SPI peripheral instead of bit-banging. */
    const hardwareSpi: bool
    /** Everything done to the control lines so far, oldest first. */
    var log: seq<Event>
    /** The register writes and latches issued since the last initialisation, as operations. */
    ghost var ops: seq<Op>
    /** The log as it stood at the last initialisation. */
    ghost var origin: seq<Event>

    /** Since the last initialisation the lines have seen exactly the rendering of the operations issued. */
    ghost predicate Valid()
      reads this
    {
      log == origin + Render(hardwareSpi, ops)
    }

    constructor(hardwareSpi: bool)
      ensures this.hardwareSpi == hardwareSpi && log == [] && ops == []
      ensures Valid()
    {
      this.hardwareSpi := hardwareSpi;
      log := [];
      ops := [];
      origin := [];
    }
    /** HAL_GPIO_WritePin on one of the control lines. */
    method SetLine(p: Pin, high: bool)
      modifies this`log
      ensures log == old(log) + [Set(p, high)]
    {
      log := log + [Set(p, high)];
    }

    /** ad9959_delay: a busy-wait, recorded with its argument. */
    method Wait(count: nat)
      modifies this`log
      ensures log == old(log) + [Delay(count)]
    {
      log := log + [Delay(count)];
    }

    /** HAL_SPI_Transmit of a block of bytes. */
    method Transmit(bytes: seq<Byte>)
      modifies this`log
      ensures log == old(log) + [Wire.Transmit(bytes)]
    {
      log := log + [Wire.Transmit(bytes)];
    }

    /**
     * ad9959_init: idle levels on every line, then the reset pulse. The
     * record of operations starts afresh.
     */
    method Init()
      modifies this`log, this`ops, this`origin
      ensures log == old(log) + InitSequence()
      ensures Valid() && ops == []
    {
      ghost var start := log;
      SetLine(CS, true);
      SetLine(CLK, false);
      SetLine(UD, false);
      SetLine(SD0, false);
      IdleBusInOrder(start);
      SetLine(SD1, false);
      SetLine(SD2, false);
      SetLine(SD3, false);
      SetLine(PDC, false);
      IdleAuxInOrder(start + IdleBus);
      SetLine(RST, false);
      Wait(3);
      SetLine(RST, true);
      Wait(500);
      SetLine(RST, false);
      ResetPulseInOrder(start + IdleBus + IdleAux);
      InitSequenceInOrder(start);
      ops := [];
      origin := log;
      assert origin + Render(hardwareSpi, []) == log;
    }

    /** IO_update: the pulse on UD that makes the staged registers take effect. */
    method IoUpdate()
      requires Valid()
      modifies this`log, this`ops
      ensures log == old(log) + UpdatePulse()
      ensures Valid() && ops == old(ops) + [Latch]
    {
      ghost var start := log;
      SetLine(UD, false);
      Wait(6);
      SetLine(UD, true);
      Wait(12);
      SetLine(UD, false);
      UpdatePulseInOrder(start);
      RenderSnoc(origin, hardwareSpi, ops, Latch);
      ops := ops + [Latch];
    }

    /**
     * AD9959_WriteData: the bit-banged write of reg and the DataNumber bytes
     * of data, each shifted out most significant bit first.
     * Only WriteDataUnified calls it, as in the source (myad9959.h does not
     * declare it), so it neither needs nor keeps Valid(): the log gains a
     * frame that no recorded operation accounts for until WriteDataUnified
     * records the write.
     */
    method WriteData(reg: Byte, data: seq<Byte>)
      requires |data| < 0x100
      modifies this`log
      ensures log == old(log) + BitBangFrame(reg, data)
    {
      SetLine(CLK, false);
      SetLine(CS, false);
      ghost var mark := log;
      var cmd := reg;
      var i := 0;
      while i < 8
        invariant 0 <= i <= 8
        invariant cmd == Shifted(reg, i) && log == mark + ShiftOut(reg, i)
      {
        ghost var before := log;
        SetLine(CLK, false);
        if TopBit(cmd) {
          SetLine(SD0, true);
        } else {
          SetLine(SD0, false);
        }
        SetLine(CLK, true);
        BitEventsInOrder(before, cmd);
        ShiftOutSnoc(mark, reg, i);
        cmd := ShiftLeft(cmd);
        i := i + 1;
      }
      SetLine(CLK, false);
      ByteFrameInOrder(mark, reg);
      ghost var header := log;
      assert data[..0] == [];
      var cnt := 0;
      while cnt < |data|
        invariant 0 <= cnt <= |data|
        invariant log == header + DataFrames(data[..cnt])
      {
        var value := data[cnt];
        ghost var start := log;
        i := 0;
        while i < 8
          invariant 0 <= i <= 8
          invariant value == Shifted(data[cnt], i) && log == start + ShiftOut(data[cnt], i)
        {
          ghost var before := log;
          SetLine(CLK, false);
          if TopBit(value) {
            SetLine(SD0, true);
          } else {
            SetLine(SD0, false);
          }
          SetLine(CLK, true);
          BitEventsInOrder(before, value);
          ShiftOutSnoc(start, data[cnt], i);
          value := ShiftLeft(value);
          i := i + 1;
        }
        SetLine(CLK, false);
        ByteFrameInOrder(start, data[cnt]);
        DataFramesStep(header, data, cnt);
        cnt := cnt + 1;
      }
      assert data[..cnt] == data;
      SetLine(CS, true);
      BitBangFrameInOrder(old(log), reg, data);
    }

    /**
     * AD9959_WriteData_SPI: select, the address, the payload if there is one, deselect.
     * Only WriteDataUnified calls it, as in the source (myad9959.h does not
     * declare it), so it neither needs nor keeps Valid(): the log gains a
     * frame that no recorded operation accounts for until WriteDataUnified
     * records the write.
     */
    method WriteDataSpi(reg: Byte, data: seq<Byte>)
      requires |data| < 0x100
      modifies this`log
      ensures log == old(log) + SpiFrame(reg, data)
    {
      SetLine(CS, false);
      Transmit([reg]);
      if |data| > 0 {
        Transmit(data);
      }
      SetLine(CS, true);
    }

    /**
     * AD9959_WriteData_Unified: the write of the backend the build selects,
     * one register write of the operations issued.
     */
    method WriteDataUnified(reg: Byte, data: seq<Byte>)
      requires |data| < 0x100 && Valid()
      modifies this`log, this`ops
      ensures Valid() && ops == old(ops) + [Write(reg, data)]
    {
      if hardwareSpi {
        WriteDataSpi(reg, data);
      } else {
        WriteData(reg, data);
      }
      RenderSnoc(origin, hardwareSpi, ops, Write(reg, data));
      ops := ops + [Write(reg, data)];
    }

    /** ad9959_channel_sel_enable: the channel's code from the table, written to CSR. */
    method ChannelSelEnable(ch: nat)
      requires ch < 4 && Valid()
      modifies this`log, this`ops
      ensures Valid() && ops == old(ops) + [SelectChannel(ch)]
    {
      var chSel := new Byte[4];
      chSel[0], chSel[1], chSel[2], chSel[3] := 0x10, 0x20, 0x40, 0x80;
      assert chSel[ch..ch + 1] == [ChannelCode(ch)];
      WriteDataUnified(CSR, chSel[ch..ch + 1]);
    }

    /** ad9959_set_signal_out: a single tone on channel ch. */
    method SetSignalOut(ch: nat, fre: nat, phase: U16, amp: U16)
      requires ch < 4 && fre < SystemClock && Valid()
      modifies this`log, this`ops
      ensures Valid() && ops == old(ops) + FixedTonePlan(ch, fre, phase, amp)
    {
      U16PhaseConvertible(phase);
      var cftw0: seq<Byte>;
      var cpow0: seq<Byte>;
      var acrData: seq<Byte> := [0x00, 0x10, 0x00];
      var cfrData: seq<Byte> := [0x00, 0x23, 0x35];
      var fr1Data: seq<Byte> := [0xD0, 0x00, 0x00];
      ghost var before := ops;

      ChannelSelEnable(ch);
      ghost var issued := [SelectChannel(ch)];
      WriteDataUnified(FR1, fr1Data);
      Issue(before, issued, Write(FR1, fr1Data));
      issued := issued + [Write(FR1, fr1Data)];
      WriteDataUnified(CFR, cfrData);
      Issue(before, issued, Write(CFR, cfrData));
      issued := issued + [Write(CFR, cfrData)];

      acrData := AcrBytes(amp, acrData);
      WriteDataUnified(ACR, acrData);
      Issue(before, issued, Write(ACR, acrData));
      issued := issued + [Write(ACR, acrData)];

      cpow0 := CpowBytes(phase);
      WriteDataUnified(CPOW0, cpow0);
      Issue(before, issued, Write(CPOW0, cpow0));
      issued := issued + [Write(CPOW0, cpow0)];

      cftw0 := CftwBytes(fre);
      WriteDataUnified(CFTW0, cftw0);
      Issue(before, issued, Write(CFTW0, cftw0));
      issued := issued + [Write(CFTW0, cftw0)];

      IoUpdate();
      Issue(before, issued, Latch);
      issued := issued + [Latch];
      FixedToneInOrder(ch, fre, phase, amp);
    }

    /** ad9959_sweep_frequency: a linear frequency sweep from fre1 to fre2 on channel ch. */
    method SweepFrequency(ch: nat, fre1: nat, fre2: nat, rdw: nat, fdw: nat, phase: U16, amp: U16)
      requires ch < 4 && fre1 < SystemClock && fre2 < SystemClock && rdw < SystemClock && fdw < SystemClock
      requires Valid()
      modifies this`log, this`ops
      ensures Valid() && ops == old(ops) + FrequencySweepPlan(ch, fre1, fre2, rdw, fdw, phase, amp)
    {
      U16PhaseConvertible(phase);
      var rdwData: seq<Byte>;
      var fdwData: seq<Byte>;
      var cftw0: seq<Byte>;
      var cpow0: seq<Byte>;
      var srrData: seq<Byte> := [0xFF, 0xFF];
      var acrData: seq<Byte> := [0x00, 0x10, 0x00];
      var cfrData: seq<Byte> := [0x82, 0x43, 0x30];
      var fr1Data: seq<Byte> := [0xD0, 0x00, 0x00];
      ghost var before := ops;

      ChannelSelEnable(ch);
      ghost var issued := [SelectChannel(ch)];
      WriteDataUnified(FR1, fr1Data);
      Issue(before, issued, Write(FR1, fr1Data));
      issued := issued + [Write(FR1, fr1Data)];
      WriteDataUnified(CFR, cfrData);
      Issue(before, issued, Write(CFR, cfrData));
      issued := issued + [Write(CFR, cfrData)];

      cftw0 := CftwBytes(fre1);
      WriteDataUnified(CFTW0, cftw0);
      Issue(before, issued, Write(CFTW0, cftw0));
      issued := issued + [Write(CFTW0, cftw0)];

      cftw0 := CftwBytes(fre2);
      WriteDataUnified(SweepEnd, cftw0);
      Issue(before, issued, Write(SweepEnd, cftw0));
      issued := issued + [Write(SweepEnd, cftw0)];

      rdwData := CftwBytes(rdw);
      WriteDataUnified(RDW, rdwData);
      Issue(before, issued, Write(RDW, rdwData));
      issued := issued + [Write(RDW, rdwData)];

      fdwData := CftwBytes(fdw);
      WriteDataUnified(FDW, fdwData);
      Issue(before, issued, Write(FDW, fdwData));
      issued := issued + [Write(FDW, fdwData)];

      WriteDataUnified(SRR, srrData);
      Issue(before, issued, Write(SRR, srrData));
      issued := issued + [Write(SRR, srrData)];

      acrData := AcrBytes(amp, acrData);
      WriteDataUnified(ACR, acrData);
      Issue(before, issued, Write(ACR, acrData));
      issued := issued + [Write(ACR, acrData)];

      cpow0 := CpowBytes(phase);
      WriteDataUnified(CPOW0, cpow0);
      Issue(before, issued, Write(CPOW0, cpow0));
      issued := issued + [Write(CPOW0, cpow0)];

      IoUpdate();
      Issue(before, issued, Latch);
      issued := issued + [Latch];
      FrequencySweepInOrder(ch, fre1, fre2, rdw, fdw, phase, amp);
    }

    /**
     * ad9959_sweep_phase: a linear phase sweep from phase1 to phase2 on
     * channel ch, as written: both phase writes send the frequency buffer.
     */
    method SweepPhase(ch: nat, fre: nat, phase1: U16, phase2: U16, rdw: U16, fdw: U16, amp: U16)
      requires ch < 4 && fre < SystemClock && Valid()
      modifies this`log, this`ops
      ensures Valid() && ops == old(ops) + PhaseSweepPlan(ch, fre, phase1, phase2, rdw, fdw, amp)
    {
      U16PhaseConvertible(phase1);
      U16PhaseConvertible(phase2);
      U16PhaseConvertible(rdw);
      U16PhaseConvertible(fdw);
      var rdwData: seq<Byte> := [0x00, 0x00, 0x00, 0x00];
      var fdwData: seq<Byte> := [0x00, 0x00, 0x00, 0x00];
      var cftw0: seq<Byte> := [0x00, 0x00, 0x00, 0x00];
      var cpow0: seq<Byte> := [0x00, 0x00, 0x00, 0x00];
      var srrData: seq<Byte> := [0xFF, 0xFF];
      var acrData: seq<Byte> := [0x00, 0x10, 0x00];
      var cfrData: seq<Byte> := [0xC0, 0xC3, 0x30];
      var fr1Data: seq<Byte> := [0xD0, 0x00, 0x00];
      ghost var before := ops;

      ChannelSelEnable(ch);
      ghost var issued := [SelectChannel(ch)];
      WriteDataUnified(FR1, fr1Data);
      Issue(before, issued, Write(FR1, fr1Data));
      issued := issued + [Write(FR1, fr1Data)];
      WriteDataUnified(CFR, cfrData);
      Issue(before, issued, Write(CFR, cfrData));
      issued := issued + [Write(CFR, cfrData)];

      cftw0 := CftwBytes(fre);
      WriteDataUnified(CFTW0, cftw0);
      Issue(before, issued, Write(CFTW0, cftw0));
      issued := issued + [Write(CFTW0, cftw0)];

      cpow0 := CpowBytes(phase1) + cpow0[2..];
      WriteDataUnified(CPOW0, cftw0[..2]);
      Issue(before, issued, Write(CPOW0, cftw0[..2]));
      issued := issued + [Write(CPOW0, cftw0[..2])];

      cpow0 := CpowBytes(phase2) + cpow0[2..];
      WriteDataUnified(SweepEnd, cftw0);
      Issue(before, issued, Write(SweepEnd, cftw0));
      issued := issued + [Write(SweepEnd, cftw0)];

      rdwData := CpowBytes(rdw) + rdwData[2..];
      WriteDataUnified(RDW, rdwData);
      Issue(before, issued, Write(RDW, rdwData));
      issued := issued + [Write(RDW, rdwData)];

      fdwData := CpowBytes(fdw) + fdwData[2..];
      WriteDataUnified(FDW, fdwData);
      Issue(before, issued, Write(FDW, fdwData));
      issued := issued + [Write(FDW, fdwData)];

      WriteDataUnified(SRR, srrData);
      Issue(before, issued, Write(SRR, srrData));
      issued := issued + [Write(SRR, srrData)];

      acrData := AcrBytes(amp, acrData);
      WriteDataUnified(ACR, acrData);
      Issue(before, issued, Write(ACR, acrData));
      issued := issued + [Write(ACR, acrData)];

      IoUpdate();
      Issue(before, issued, Latch);
      issued := issued + [Latch];
      PhaseSweepInOrder(ch, fre, phase1, phase2, rdw, fdw, amp);
    }

    /**
     * ad9959_sweep_amplitude: a linear amplitude sweep from amp1 to amp2 on
     * channel ch, as written: CPOW0 is sent from the frequency buffer before
     * anything is stored in it. The buffer is uninitialised; stale is what it held.
     */
    method SweepAmplitude(ch: nat, fre: nat, phase: U16, amp1: U16, amp2: U16, rdw: U16, fdw: U16)
      returns (ghost stale: seq<Byte>)
      requires ch < 4 && fre < SystemClock && Valid()
      modifies this`log, this`ops
      ensures |stale| == 4
      ensures Valid() && ops == old(ops) + AmplitudeSweepPlan(ch, fre, phase, amp1, amp2, rdw, fdw, stale)
    {
      U16PhaseConvertible(phase);
      var ampData: seq<Byte>;
      var rdwData: seq<Byte>;
      var fdwData: seq<Byte>;
      assert |[0, 0, 0, 0]| == 4;
      var cftw0: seq<Byte> :| |cftw0| == 4;
      var cpow0: seq<Byte>;
      var srrData: seq<Byte> := [0xFF, 0xFF];
      var acrData: seq<Byte> := [0x00, 0x00, 0x00];
      var cfrData: seq<Byte> := [0x40, 0x43, 0x20];
      var fr1Data: seq<Byte> := [0xD0, 0x00, 0x00];
      stale := cftw0;
      ghost var before := ops;

      ChannelSelEnable(ch);
      ghost var issued := [SelectChannel(ch)];
      WriteDataUnified(FR1, fr1Data);
      Issue(before, issued, Write(FR1, fr1Data));
      issued := issued + [Write(FR1, fr1Data)];
      WriteDataUnified(CFR, cfrData);
      Issue(before, issued, Write(CFR, cfrData));
      issued := issued + [Write(CFR, cfrData)];

      acrData := AcrBytes(amp1, acrData);
      WriteDataUnified(ACR, acrData);
      Issue(before, issued, Write(ACR, acrData));
      issued := issued + [Write(ACR, acrData)];

      ampData := AmpSweepBytes(amp2);
      WriteDataUnified(SweepEnd, ampData);
      Issue(before, issued, Write(SweepEnd, ampData));
      issued := issued + [Write(SweepEnd, ampData)];

      rdwData := AmpSweepBytes(rdw);
      WriteDataUnified(RDW, rdwData);
      Issue(before, issued, Write(RDW, rdwData));
      issued := issued + [Write(RDW, rdwData)];

      fdwData := AmpSweepBytes(fdw);
      WriteDataUnified(FDW, fdwData);
      Issue(before, issued, Write(FDW, fdwData));
      issued := issued + [Write(FDW, fdwData)];

      WriteDataUnified(SRR, srrData);
      Issue(before, issued, Write(SRR, srrData));
      issued := issued + [Write(SRR, srrData)];

      cpow0 := CpowBytes(phase);
      WriteDataUnified(CPOW0, cftw0[..2]);
      Issue(before, issued, Write(CPOW0, cftw0[..2]));
      issued := issued + [Write(CPOW0, cftw0[..2])];

      cftw0 := CftwBytes(fre);
      WriteDataUnified(CFTW0, cftw0);
      Issue(before, issued, Write(CFTW0, cftw0));
      issued := issued + [Write(CFTW0, cftw0)];

      IoUpdate();
      Issue(before, issued, Latch);
      issued := issued + [Latch];
      AmplitudeSweepInOrder(ch, fre, phase, amp1, amp2, rdw, fdw, stale);
    }
  }
}
