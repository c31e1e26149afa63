/**
 * Channel and latch control: the register map, the one-hot channel select
 * code written to CSR, the I/O update pulse that makes staged register
 * writes take effect together, and the power-on line sequence with the
 * hardware reset pulse.
 */
module Control {
  import opened Bytes
  import opened Wire

  // Register addresses of the chip.
  const CSR: Byte := 0x00     // channel select
  const FR1: Byte := 0x01     // function register 1
  const FR2: Byte := 0x02     // function register 2
  const CFR: Byte := 0x03     // channel function register
  const CFTW0: Byte := 0x04   // 32-bit frequency tuning word
  const CPOW0: Byte := 0x05   // 14-bit phase offset word
  const ACR: Byte := 0x06     // amplitude control
  const SRR: Byte := 0x07     // linear sweep ramp rate
  const RDW: Byte := 0x08     // rising delta word
  const FDW: Byte := 0x09     // falling delta word
  /** The slot the sweep functions write the end-of-sweep value to (a literal in the driver). */
  const SweepEnd: Byte := 0x0A

  /** The one-hot CSR code of a channel: {0x10, 0x20, 0x40, 0x80}[ch]. */
  function ChannelCode(ch: nat): (c: Byte)
    requires ch < 4
    ensures c == 0x10 * Pow2(ch)
  {
    [0x10, 0x20, 0x40, 0x80][ch]
  }

  /**
   * The code of channel ch has exactly one bit set, bit 4 + ch (the bit at
   * position 3 - ch, most significant first), so distinct channels get
   * distinct codes and the low four bits are always clear.
   */
  lemma ChannelCodeOneHot(ch: nat)
    requires ch < 4
    ensures ChannelCode(ch) == 0x10 * Pow2(ch)
    ensures forall j :: 0 <= j < 8 ==> (MsbBits(ChannelCode(ch))[j] <==> j == 3 - ch)
  {
    assert Pow2(1) == 2 && Pow2(2) == 4 && Pow2(3) == 8;
    if ch == 0 {
      assert MsbBits(0x10) == [false, false, false, true, false, false, false, false];
    } else if ch == 1 {
      assert MsbBits(0x20) == [false, false, true, false, false, false, false, false];
    } else if ch == 2 {
      assert MsbBits(0x40) == [false, true, false, false, false, false, false, false];
    } else {
      assert MsbBits(0x80) == [true, false, false, false, false, false, false, false];
    }
  }

  /** Distinct channels are selected by distinct codes. */
  lemma ChannelCodeInjective(ch: nat, ch': nat)
    requires ch < 4 && ch' < 4 && ch != ch'
    ensures ChannelCode(ch) != ChannelCode(ch')
  {
    ChannelCodeOneHot(ch);
    ChannelCodeOneHot(ch');
    assert MsbBits(ChannelCode(ch))[3 - ch] != MsbBits(ChannelCode(ch'))[3 - ch];
  }

  /**
   * IO_update: UD low, wait, UD high (the chip latches on this edge), wait,
   * UD low. Five events, each a wait or a level on UD.
   */
  function UpdatePulse(): (evs: seq<Event>)
    ensures |evs| == 5 && forall i :: 0 <= i < |evs| ==> evs[i].Delay? || Drives(evs[i], UD)
  {
    [Set(UD, false), Delay(6), Set(UD, true), Delay(12), Set(UD, false)]
  }

  // ad9959_init, in three parts: the serial lines idle (CS high, CLK, UD and
  // SD0 low), the other data lines and power-down low, and the reset pulse.
  const IdleBus: seq<Event> := [Set(CS, true), Set(CLK, false), Set(UD, false), Set(SD0, false)]
  const IdleAux: seq<Event> := [Set(SD1, false), Set(SD2, false), Set(SD3, false), Set(PDC, false)]
  const ResetPulse: seq<Event> :=
    [Set(RST, false), Delay(3), Set(RST, true), Delay(500), Set(RST, false)]

  /** ad9959_init: only line levels and waits, no transfer, ending with the reset line low. */
  function InitSequence(): (evs: seq<Event>)
    ensures |evs| == 13 && evs[12] == Set(RST, false)
    ensures forall i :: 0 <= i < |evs| ==> !evs[i].Transmit?
  {
    IdleBus + IdleAux + ResetPulse
  }

  // Each sequence, event by event as the driver issues it.

  lemma UpdatePulseInOrder(done: seq<Event>)
    ensures done + [Set(UD, false)] + [Delay(6)] + [Set(UD, true)] + [Delay(12)] + [Set(UD, false)]
      == done + UpdatePulse()
  {
  }

  lemma IdleBusInOrder(done: seq<Event>)
    ensures done + [Set(CS, true)] + [Set(CLK, false)] + [Set(UD, false)] + [Set(SD0, false)] == done + IdleBus
  {
  }

  lemma IdleAuxInOrder(done: seq<Event>)
    ensures done + [Set(SD1, false)] + [Set(SD2, false)] + [Set(SD3, false)] + [Set(PDC, false)] == done + IdleAux
  {
  }

  lemma ResetPulseInOrder(done: seq<Event>)
    ensures done + [Set(RST, false)] + [Delay(3)] + [Set(RST, true)] + [Delay(500)] + [Set(RST, false)]
      == done + ResetPulse
  {
  }

  lemma InitSequenceInOrder(done: seq<Event>)
    ensures done + IdleBus + IdleAux + ResetPulse == done + InitSequence()
  {
  }

  predicate Drives(e: Event, p: Pin) {
    e.Set? && e.pin == p
  }

  /** An event that neither drives a serial line nor transfers bytes. */
  predicate OffBus(e: Event) {
    e.Delay? || (e.Set? && e.pin != CS && e.pin != CLK && e.pin != SD0)
  }

  /** A log that never drives p leaves no level on p. */
  lemma {:induction false} Untouched(evs: seq<Event>, p: Pin)
    requires forall i :: 0 <= i < |evs| ==> !Drives(evs[i], p)
    ensures Trace(evs, p) == []
    decreases |evs|
  {
    if evs != [] {
      assert !Drives(evs[0], p);
      Untouched(evs[1..], p);
    }
  }

  /** A log of off-bus events clocks nothing into the chip and leaves the serial lines as they were. */
  lemma {:induction false} Quiet(evs: seq<Event>, l: Lines)
    requires forall i :: 0 <= i < |evs| ==> OffBus(evs[i])
    ensures Samples(evs, l) == [] && Selected(evs, l) && Run(evs, l) == l
    decreases |evs|
  {
    if evs != [] {
      assert OffBus(evs[0]);
      Quiet(evs[1..], l);
    }
  }

  /** Low, high, low has one rising edge whatever the level before. */
  lemma OnePulse(before: bool)
    ensures RisingEdges([false, true, false], before) == 1
  {
    assert [false, true, false][1..] == [true, false];
    assert [true, false][1..] == [false];
    assert [false][1..] == [];
  }

  /**
   * The update pulse drives UD low, high, low: exactly one rising edge
   * whatever level UD had before, ending low; it drives no other line and
   * clocks no bit into the chip.
   */
  lemma UpdatePulseLines(p: Pin)
    ensures Trace(UpdatePulse(), p) == if p == UD then [false, true, false] else []
  {
    if p != UD {
      Untouched(UpdatePulse(), p);
    }
  }

  /** The chip latches once per pulse; the pulse leaves the serial lines alone. */
  lemma UpdatePulseLatchesOnce(before: bool, l: Lines)
    ensures RisingEdges(Trace(UpdatePulse(), UD), before) == 1
    ensures Samples(UpdatePulse(), l) == [] && Selected(UpdatePulse(), l) && Run(UpdatePulse(), l) == l
  {
    UpdatePulseLines(UD);
    OnePulse(before);
    Quiet(UpdatePulse(), l);
  }

  lemma IdleBusLines(p: Pin)
    ensures Trace(IdleBus, p) == if p == CS then [true] else if p in {CLK, UD, SD0} then [false] else []
  {
    TraceFour(Set(CS, true), Set(CLK, false), Set(UD, false), Set(SD0, false), p);
  }

  lemma IdleAuxLines(p: Pin)
    ensures Trace(IdleAux, p) == if p in {SD1, SD2, SD3, PDC} then [false] else []
  {
    TraceFour(Set(SD1, false), Set(SD2, false), Set(SD3, false), Set(PDC, false), p);
  }

  lemma ResetPulseLines(p: Pin)
    ensures Trace(ResetPulse, p) == if p == RST then [false, true, false] else []
  {
    TraceFive(Set(RST, false), Delay(3), Set(RST, true), Delay(500), Set(RST, false), p);
  }

  /**
   * The initialisation drives chip select high (idle) and CLK, UD, SD0..SD3
   * and PDC low, each once, and the reset line low, high, low: one reset
   * pulse, ending low.
   */
  lemma InitSequenceLines(p: Pin)
    ensures Trace(InitSequence(), p) == if p == CS then [true] else if p == RST then [false, true, false] else [false]
  {
    IdleBusLines(p);
    IdleAuxLines(p);
    ResetPulseLines(p);
    InitLinesOf(IdleBus, IdleAux, ResetPulse, p);
  }

  /** The levels of the three parts put together, for any logs with those levels. */
  lemma InitLinesOf(bus: seq<Event>, aux: seq<Event>, reset: seq<Event>, p: Pin)
    requires Trace(bus, p) == if p == CS then [true] else if p in {CLK, UD, SD0} then [false] else []
    requires Trace(aux, p) == if p in {SD1, SD2, SD3, PDC} then [false] else []
    requires Trace(reset, p) == if p == RST then [false, true, false] else []
    ensures Trace(bus + aux + reset, p) == if p == CS then [true] else if p == RST then [false, true, false] else [false]
  {
    TraceThree(bus, aux, reset, p);
  }

  /** The reset line sees exactly one rising edge, whatever its level before. */
  lemma InitSequenceResetsOnce(before: bool)
    ensures RisingEdges(Trace(InitSequence(), RST), before) == 1
  {
    InitSequenceLines(RST);
    OnePulse(before);
  }
}
