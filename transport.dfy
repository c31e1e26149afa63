/**
 * The serial transport: one register write is the address byte followed by
 * the payload bytes, each most significant bit first, with chip select held
 * low for the whole transfer. Two backends produce it: the bit-banged port
 * (AD9959_WriteData), which drives CLK and SD0 by hand, and the SPI
 * peripheral (AD9959_WriteData_SPI), which is handed the bytes as blocks.
 * This module gives the exact event sequence of each and proves what the
 * chip receives from them.
 */
module Transport {
  import opened Bytes
  import opened Wire

  /** `0x80 == (v & 0x80)`: the top bit of a byte. */
  function TopBit(v: Byte): bool {
    v >= 0x80
  }

  /** `v <<= 1` on a uint8_t: the top bit falls off. */
  function ShiftLeft(v: Byte): (w: Byte)
    ensures w % 2 == 0 && w / 2 == v % 0x80
  {
    (v * 2) % 0x100
  }

  /** One bit: clock low, the top bit of v on SD0, clock high (the chip samples here). */
  function BitEvents(v: Byte): seq<Event> {
    [Set(CLK, false), Set(SD0, TopBit(v)), Set(CLK, true)]
  }

  /** The events of one bit, issued one at a time. */
  lemma BitEventsInOrder(done: seq<Event>, v: Byte)
    ensures ((done + [Set(CLK, false)]) + [Set(SD0, TopBit(v))]) + [Set(CLK, true)] == done + BitEvents(v)
  {
  }

  /** The first k bits of v, shifting v left after each. */
  function ShiftOut(v: Byte, k: nat): seq<Event>
    decreases k
  {
    if k == 0 then [] else BitEvents(v) + ShiftOut(ShiftLeft(v), k - 1)
  }

  /** v after i left shifts. */
  function Shifted(v: Byte, i: nat): Byte
    decreases i
  {
    if i == 0 then v else ShiftLeft(Shifted(v, i - 1))
  }

  /** The first i + 1 bits are the first i bits and then the bit that i shifts bring to the top. */
  lemma {:induction false} ShiftOutSnoc(done: seq<Event>, v: Byte, i: nat)
    ensures (done + ShiftOut(v, i)) + BitEvents(Shifted(v, i)) == done + ShiftOut(v, i + 1)
    decreases i
  {
    if i > 0 {
      var rest := ShiftOut(ShiftLeft(v), i - 1);
      ShiftOutSnoc(done + BitEvents(v), ShiftLeft(v), i - 1);
      ShiftedFirst(v, i - 1);
      assert done + ShiftOut(v, i) == (done + BitEvents(v)) + rest;
      assert done + ShiftOut(v, i + 1) == (done + BitEvents(v)) + ShiftOut(ShiftLeft(v), i);
    }
  }

  /** Shifting i + 1 times is shifting once and then i times. */
  lemma {:induction false} ShiftedFirst(v: Byte, i: nat)
    ensures Shifted(v, i + 1) == Shifted(ShiftLeft(v), i)
    decreases i
  {
    if i > 0 {
      ShiftedFirst(v, i - 1);
    }
  }

  /** All eight bits of a byte, then clock low. */
  function ByteFrame(v: Byte): seq<Event> {
    ShiftOut(v, 8) + [Set(CLK, false)]
  }

  /** The payload bytes one after the other. */
  function DataFrames(data: seq<Byte>): seq<Event>
    decreases |data|
  {
    if data == [] then [] else DataFrames(data[..|data| - 1]) + ByteFrame(data[|data| - 1])
  }

  /** One more byte of the payload adds that byte's frame. */
  lemma DataFramesStep(done: seq<Event>, data: seq<Byte>, k: nat)
    requires k < |data|
    ensures (done + DataFrames(data[..k])) + ByteFrame(data[k]) == done + DataFrames(data[..k + 1])
  {
    assert data[..k + 1][..k] == data[..k];
  }

  /** The eight bits of a byte and then the clock low make up its frame. */
  lemma ByteFrameInOrder(done: seq<Event>, v: Byte)
    ensures (done + ShiftOut(v, 8)) + [Set(CLK, false)] == done + ByteFrame(v)
  {
  }

  /** The whole bit-banged write: clock low, select, address, payload, deselect. */
  function BitBangFrame(reg: Byte, data: seq<Byte>): seq<Event> {
    [Set(CLK, false), Set(CS, false)] + ByteFrame(reg) + DataFrames(data) + [Set(CS, true)]
  }

  /** The parts of the bit-banged write, issued one after the other. */
  lemma BitBangFrameInOrder(done: seq<Event>, reg: Byte, data: seq<Byte>)
    ensures ((((done + [Set(CLK, false)]) + [Set(CS, false)]) + ByteFrame(reg)) + DataFrames(data)) + [Set(CS, true)]
      == done + BitBangFrame(reg, data)
  {
    var a, b, e := [Set(CLK, false)], [Set(CS, false)], [Set(CS, true)];
    var c, d := ByteFrame(reg), DataFrames(data);
    assert a + b == [Set(CLK, false), Set(CS, false)];
    assert BitBangFrame(reg, data) == (a + b) + c + d + e;
    Regroup(done, a, b, c, d, e);
  }

  lemma Regroup(done: seq<Event>, a: seq<Event>, b: seq<Event>, c: seq<Event>, d: seq<Event>, e: seq<Event>)
    ensures ((((done + a) + b) + c) + d) + e == done + ((a + b) + c + d + e)
  {
  }

  /** The peripheral write: select, address block, payload block if any, deselect. */
  function SpiFrame(reg: Byte, data: seq<Byte>): (evs: seq<Event>)
    ensures 3 <= |evs| <= 4 && (|evs| == 4 <==> |data| > 0)
    ensures evs[0] == Set(CS, false) && evs[1] == Transmit([reg]) && evs[|evs| - 1] == Set(CS, true)
    ensures forall i :: 0 < i < |evs| - 1 ==> evs[i].Transmit?
  {
    [Set(CS, false), Transmit([reg])] + (if |data| > 0 then [Transmit(data)] else []) + [Set(CS, true)]
  }

  /** The write of whichever backend the build selects. */
  function WriteFrame(hardwareSpi: bool, reg: Byte, data: seq<Byte>): seq<Event> {
    if hardwareSpi then SpiFrame(reg, data) else BitBangFrame(reg, data)
  }

  /** The lines a register write drives: chip select, clock and SD0. */
  predicate BusPin(p: Pin) {
    p == CS || p == CLK || p == SD0
  }

  // ---------------------------------------------------------------- lemmas

  /** Shifting left moves every bit one place up; the top bit tested is the first bit. */
  lemma ShiftLeftBits(v: Byte)
    ensures MsbBits(v)[0] == TopBit(v)
    ensures MsbBits(ShiftLeft(v))[..7] == MsbBits(v)[1..]
  {
    forall j | 0 <= j < 7
      ensures MsbBits(ShiftLeft(v))[j] == MsbBits(v)[j + 1]
    {
      ShiftLeftBit(v, j);
    }
  }

  /** Bit j of v << 1 (counting from the top) is bit j + 1 of v. */
  lemma ShiftLeftBit(v: Byte, j: nat)
    requires j < 7
    ensures MsbBits(ShiftLeft(v))[j] == MsbBits(v)[j + 1]
  {
    var w := ShiftLeft(v);
    var t := v / 0x80;
    if v < 0x80 {
      assert w == 2 * v;
    } else {
      assert w == 2 * v - 0x100;
    }
    var e, k := Weight(j + 1), Weight(7 - j);
    WeightHalves(j);
    assert 4 * e * (k * t) == 4 * (e * k) * t;
    HalfShift(w, v, e, k * t);
    MsbBitAt(w, j);
    MsbBitAt(v, j + 1);
  }

  /** One bit clocks in the top bit of v, under chip select if CS was low, touching CLK and SD0 only. */
  lemma BitEventsEffect(v: Byte, l: Lines)
    ensures Samples(BitEvents(v), l) == [TopBit(v)]
    ensures Selected(BitEvents(v), l) == !l.cs
    ensures Run(BitEvents(v), l) == l.(clk := true, sd0 := TopBit(v))
    ensures forall p :: !BusPin(p) || p == CS ==> Trace(BitEvents(v), p) == []
  {
    var e0, e1, e2 := Set(CLK, false), Set(SD0, TopBit(v)), Set(CLK, true);
    assert BitEvents(v) == [e0] + [e1] + [e2];
    var l1 := Step(l, e0);
    var l2 := Step(l1, e1);
    forall p ensures Trace(BitEvents(v), p) == Trace([e0], p) + Trace([e1], p) + Trace([e2], p) {
      RunOne(e0, l, p);
      RunOne(e1, l1, p);
      RunOne(e2, l2, p);
      TraceAppend([e0], [e1], p);
      TraceAppend([e0] + [e1], [e2], p);
    }
    RunOne(e0, l, CS);
    RunOne(e1, l1, CS);
    RunOne(e2, l2, CS);
    RunAppend([e0], [e1], l);
    RunAppend([e0] + [e1], [e2], l);
  }

  /** Shifting out k bits of v clocks in the first k bits of v, with chip select untouched. */
  lemma {:induction false} ShiftOutSamples(v: Byte, k: nat, l: Lines)
    requires k <= 8 && !l.cs
    ensures Samples(ShiftOut(v, k), l) == MsbBits(v)[..k]
    ensures Selected(ShiftOut(v, k), l)
    ensures Run(ShiftOut(v, k), l).cs == l.cs
    ensures forall p :: !BusPin(p) || p == CS ==> Trace(ShiftOut(v, k), p) == []
    decreases k
  {
    if k > 0 {
      var first, rest := BitEvents(v), ShiftOut(ShiftLeft(v), k - 1);
      assert ShiftOut(v, k) == first + rest;
      var l' := Run(first, l);
      BitEventsEffect(v, l);
      ShiftOutSamples(ShiftLeft(v), k - 1, l');
      RunAppend(first, rest, l);
      BitsPrefix(v, k);
    }
    forall p | !BusPin(p) || p == CS
      ensures Trace(ShiftOut(v, k), p) == []
    {
      ShiftOutTrace(v, k, p);
    }
  }

  /** Shifting bits out drives neither chip select nor any line off the data path. */
  lemma {:induction false} ShiftOutTrace(v: Byte, k: nat, p: Pin)
    requires !BusPin(p) || p == CS
    ensures Trace(ShiftOut(v, k), p) == []
    decreases k
  {
    if k > 0 {
      var first, rest := BitEvents(v), ShiftOut(ShiftLeft(v), k - 1);
      assert ShiftOut(v, k) == first + rest;
      BitEventsEffect(v, Lines(false, false, false));
      ShiftOutTrace(ShiftLeft(v), k - 1, p);
      TraceAppend(first, rest, p);
    }
  }

  /** The first k bits of v are its top bit and then the first k - 1 bits of v << 1. */
  lemma BitsPrefix(v: Byte, k: nat)
    requires 0 < k <= 8
    ensures MsbBits(v)[..k] == [TopBit(v)] + MsbBits(ShiftLeft(v))[..k - 1]
  {
    ShiftLeftBits(v);
    var a, b := MsbBits(v), MsbBits(ShiftLeft(v));
    assert a[..k] == [a[0]] + a[1..][..k - 1];
    assert a[1..][..k - 1] == b[..7][..k - 1];
  }

  /** A whole byte clocks in its eight bits and leaves the clock low. */
  lemma ByteFrameSamples(v: Byte, l: Lines)
    requires !l.cs
    ensures Samples(ByteFrame(v), l) == MsbBits(v)
    ensures Selected(ByteFrame(v), l)
    ensures Run(ByteFrame(v), l).cs == l.cs && !Run(ByteFrame(v), l).clk
    ensures forall p :: !BusPin(p) || p == CS ==> Trace(ByteFrame(v), p) == []
  {
    ShiftOutSamples(v, 8, l);
    RunAppend(ShiftOut(v, 8), [Set(CLK, false)], l);
    assert MsbBits(v)[..8] == MsbBits(v);
    forall p | !BusPin(p) || p == CS
      ensures Trace(ByteFrame(v), p) == []
    {
      TraceAppend(ShiftOut(v, 8), [Set(CLK, false)], p);
    }
  }

  /** The payload clocks in the bits of every payload byte, in order. */
  lemma {:induction false} DataFramesSamples(data: seq<Byte>, l: Lines)
    requires !l.cs && !l.clk
    ensures Samples(DataFrames(data), l) == BitsOf(data)
    ensures Selected(DataFrames(data), l)
    ensures !Run(DataFrames(data), l).cs && !Run(DataFrames(data), l).clk
    decreases |data|
  {
    if data != [] {
      var n := |data| - 1;
      var front, last := DataFrames(data[..n]), ByteFrame(data[n]);
      assert DataFrames(data) == front + last;
      DataFramesSamples(data[..n], l);
      var mid := Run(front, l);
      ByteFrameSamples(data[n], mid);
      RunAppend(front, last, l);
      BitsOfLast(data);
    }
  }

  /** The payload drives no line but CLK and SD0. */
  lemma {:induction false} DataFramesTrace(data: seq<Byte>, p: Pin)
    requires !BusPin(p) || p == CS
    ensures Trace(DataFrames(data), p) == []
    decreases |data|
  {
    if data != [] {
      var n := |data| - 1;
      DataFramesTrace(data[..n], p);
      ByteFrameSamples(data[n], Lines(false, false, false));
      TraceAppend(DataFrames(data[..n]), ByteFrame(data[n]), p);
    }
  }

  /**
   * The bit-banged write, from any line state: exactly 8 * (N + 1) rising
   * clock edges, SD0 at them the bits of the address and then of the payload,
   * chip select low at every one of them, and the clock left low with chip
   * select high.
   */
  lemma BitBangFrameReceives(reg: Byte, data: seq<Byte>, l: Lines)
    ensures Samples(BitBangFrame(reg, data), l) == BitsOf([reg] + data)
    ensures |Samples(BitBangFrame(reg, data), l)| == 8 * (|data| + 1)
    ensures Selected(BitBangFrame(reg, data), l)
    ensures Run(BitBangFrame(reg, data), l).cs && !Run(BitBangFrame(reg, data), l).clk
  {
    var open, body, close := [Set(CLK, false), Set(CS, false)], ByteFrame(reg) + DataFrames(data), [Set(CS, true)];
    OpenEffect(l);
    var l1 := Run(open, l);
    BodyReceives(reg, data, l1);
    var l2 := Run(body, l1);
    RunOne(Set(CS, true), l2, CS);
    assert BitBangFrame(reg, data) == open + ByteFrame(reg) + DataFrames(data) + close;
    Associate(open, ByteFrame(reg), DataFrames(data), close);
    RunAppend(open, body, l);
    RunAppend(open + body, close, l);
  }

  lemma Associate(a: seq<Event>, b: seq<Event>, c: seq<Event>, d: seq<Event>)
    ensures a + b + c + d == (a + (b + c)) + d
  {
  }

  /** The opening of a bit-banged write: clock low, then chip select low; nothing sampled. */
  lemma OpenEffect(l: Lines)
    ensures var open := [Set(CLK, false), Set(CS, false)];
      !Run(open, l).cs && !Run(open, l).clk && Samples(open, l) == [] && Selected(open, l)
  {
    var e0, e1 := Set(CLK, false), Set(CS, false);
    RunOne(e0, l, CS);
    RunOne(e1, Step(l, e0), CS);
    RunAppend([e0], [e1], l);
    assert [e0, e1] == [e0] + [e1];
  }

  /** Address and payload, clocked in while chip select is low. */
  lemma BodyReceives(reg: Byte, data: seq<Byte>, l: Lines)
    requires !l.cs && !l.clk
    ensures Samples(ByteFrame(reg) + DataFrames(data), l) == BitsOf([reg] + data)
    ensures Selected(ByteFrame(reg) + DataFrames(data), l)
    ensures !Run(ByteFrame(reg) + DataFrames(data), l).cs && !Run(ByteFrame(reg) + DataFrames(data), l).clk
  {
    ByteFrameSamples(reg, l);
    DataFramesSamples(data, Run(ByteFrame(reg), l));
    RunAppend(ByteFrame(reg), DataFrames(data), l);
    BitsOfAppend([reg], data);
    assert BitsOf([reg]) == MsbBits(reg) + BitsOf([]);
  }

  /**
   * The bit-banged write drives chip select low once and high once, and
   * touches no line but CS, CLK and SD0.
   */
  lemma BitBangFrameLines(reg: Byte, data: seq<Byte>)
    ensures Trace(BitBangFrame(reg, data), CS) == [false, true]
    ensures forall p :: !BusPin(p) ==> Trace(BitBangFrame(reg, data), p) == []
  {
    BitBangFrameLine(reg, data, CS);
    forall p | !BusPin(p)
      ensures Trace(BitBangFrame(reg, data), p) == []
    {
      BitBangFrameLine(reg, data, p);
    }
  }

  /** The levels of one line off the data path, or of chip select, along the bit-banged write. */
  lemma BitBangFrameLine(reg: Byte, data: seq<Byte>, p: Pin)
    requires p == CS || !BusPin(p)
    ensures Trace(BitBangFrame(reg, data), p) == if p == CS then [false, true] else []
  {
    ByteFrameSamples(reg, Lines(false, false, false));
    assert Trace(ByteFrame(reg), p) == [];
    DataFramesTrace(data, p);
    BitBangFrameTrace(reg, data, p);
    if p == CS {
      assert Trace(BitBangFrame(reg, data), p) == [false] + [] + [] + [true];
    } else {
      assert Trace(BitBangFrame(reg, data), p) == [] + [] + [] + [];
    }
  }

  /** The levels the bit-banged write drives on p: the opening, the address, the payload, the closing. */
  lemma BitBangFrameTrace(reg: Byte, data: seq<Byte>, p: Pin)
    ensures Trace(BitBangFrame(reg, data), p)
      == (if p == CS || p == CLK then [false] else []) + Trace(ByteFrame(reg), p) + Trace(DataFrames(data), p)
         + (if p == CS then [true] else [])
  {
    var open, close := [Set(CLK, false), Set(CS, false)], [Set(CS, true)];
    var a, b := ByteFrame(reg), DataFrames(data);
    OpenCloseTrace(p);
    TraceAppend(open, a, p);
    TraceAppend(open + a, b, p);
    TraceAppend(open + a + b, close, p);
  }

  lemma OpenCloseTrace(p: Pin)
    ensures Trace([Set(CLK, false), Set(CS, false)], p) == if p == CS || p == CLK then [false] else []
    ensures Trace([Set(CS, true)], p) == if p == CS then [true] else []
  {
    assert [Set(CLK, false), Set(CS, false)][1..] == [Set(CS, false)];
    assert [Set(CS, false)][1..] == [];
    assert [Set(CS, true)][1..] == [];
  }

  /** The peripheral write delivers the same bits, under chip select, leaving chip select high. */
  lemma SpiFrameReceives(reg: Byte, data: seq<Byte>, l: Lines)
    ensures Samples(SpiFrame(reg, data), l) == BitsOf([reg] + data)
    ensures Selected(SpiFrame(reg, data), l)
    ensures Run(SpiFrame(reg, data), l).cs
  {
    var e0, e1, e3 := Set(CS, false), Transmit([reg]), Set(CS, true);
    var blocks := if |data| > 0 then [Transmit(data)] else [];
    var l1 := l.(cs := false);
    var head := [e0] + [e1];
    assert SpiFrame(reg, data) == head + blocks + [e3];
    assert Samples(blocks, l1) == BitsOf(data) && Selected(blocks, l1) && Run(blocks, l1) == l1 by {
      if |data| > 0 {
        RunOne(Transmit(data), l1, CS);
      }
    }
    RunOne(e0, l, CS);
    RunOne(e1, l1, CS);
    RunOne(e3, l1, CS);
    BitsOfOne(reg);
    RunAppend([e0], [e1], l);
    assert Samples(head, l) == MsbBits(reg) && Selected(head, l) && Run(head, l) == l1;
    RunAppend(head, blocks, l);
    assert Samples(head + blocks, l) == MsbBits(reg) + BitsOf(data);
    RunAppend(head + blocks, [e3], l);
    assert Samples(head + blocks + [e3], l) == MsbBits(reg) + BitsOf(data) + [];
    BitsOfAppend([reg], data);
  }

  /** The peripheral write drives chip select low once and high once, and no other line. */
  lemma SpiFrameLines(reg: Byte, data: seq<Byte>)
    ensures Trace(SpiFrame(reg, data), CS) == [false, true]
    ensures forall p :: p != CS ==> Trace(SpiFrame(reg, data), p) == []
  {
    var e0, e1, e3 := Set(CS, false), Transmit([reg]), Set(CS, true);
    var blocks := if |data| > 0 then [Transmit(data)] else [];
    var l := Lines(true, false, false);
    assert SpiFrame(reg, data) == [e0] + [e1] + blocks + [e3];
    forall p ensures Trace(SpiFrame(reg, data), p) == if p == CS then [false, true] else []
    {
      RunOne(e0, l, p);
      RunOne(e1, l, p);
      RunOne(e3, l, p);
      assert Trace(blocks, p) == [] by {
        if |data| > 0 {
          RunOne(Transmit(data), l, p);
        }
      }
      TraceAppend([e0], [e1], p);
      TraceThree([e0] + [e1], blocks, [e3], p);
      if p == CS {
        assert Trace(SpiFrame(reg, data), p) == ([false] + []) + [] + [true];
      } else {
        assert Trace(SpiFrame(reg, data), p) == ([] + []) + [] + [];
      }
    }
  }

  /** Both backends put the same bits on the wire for the same write. */
  lemma BackendsAgree(reg: Byte, data: seq<Byte>, l: Lines, l': Lines)
    ensures Samples(BitBangFrame(reg, data), l) == Samples(SpiFrame(reg, data), l')
  {
    BitBangFrameReceives(reg, data, l);
    SpiFrameReceives(reg, data, l');
  }

  /** Whichever backend is built, the chip assembles exactly the address followed by the payload. */
  lemma WriteFrameReceives(hardwareSpi: bool, reg: Byte, data: seq<Byte>, l: Lines)
    ensures Samples(WriteFrame(hardwareSpi, reg, data), l) == BitsOf([reg] + data)
    ensures Pack(Samples(WriteFrame(hardwareSpi, reg, data), l)) == [reg] + data
    ensures Selected(WriteFrame(hardwareSpi, reg, data), l)
    ensures Run(WriteFrame(hardwareSpi, reg, data), l).cs
    ensures Trace(WriteFrame(hardwareSpi, reg, data), CS) == [false, true]
    ensures forall p :: !BusPin(p) ==> Trace(WriteFrame(hardwareSpi, reg, data), p) == []
  {
    if hardwareSpi {
      SpiFrameReceives(reg, data, l);
      SpiFrameLines(reg, data);
    } else {
      BitBangFrameReceives(reg, data, l);
      BitBangFrameLines(reg, data);
    }
    PackBitsOf([reg] + data);
  }
}
