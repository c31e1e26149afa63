/**
 * The chip side of the control lines. The driver's only effect on the world
 * is a log of events: a line driven to a level, a busy-wait, or a block of
 * bytes handed to the serial peripheral. This module says what the AD9959
 * observes in such a log: the bit on SD0 at every rising edge of CLK (and the
 * bits of every block transfer, which the peripheral clocks out high bit
 * first), whether chip select was low at each of those samples, and the
 * sequence of levels driven on each line.
 */
module Wire {
  import opened Bytes

  /** The driver's control lines to the chip. */
  datatype Pin = CS | CLK | UD | SD0 | SD1 | SD2 | SD3 | RST | PDC

  datatype Event =
    | Set(pin: Pin, high: bool)      // drive a line (HAL_GPIO_WritePin)
    | Delay(count: nat)              // busy-wait of the given length
    | Transmit(bytes: seq<Byte>)     // block transfer by the SPI peripheral

  /** The lines the serial port of the chip looks at. */
  datatype Lines = Lines(cs: bool, clk: bool, sd0: bool)

  /** The bits of a byte, most significant first. */
  function MsbBits(v: Byte): (bits: seq<bool>)
    ensures |bits| == 8
  {
    [ (v / 0x80) % 2 == 1, (v / 0x40) % 2 == 1, (v / 0x20) % 2 == 1, (v / 0x10) % 2 == 1,
      (v / 0x08) % 2 == 1, (v / 0x04) % 2 == 1, (v / 0x02) % 2 == 1, v % 2 == 1 ]
  }

  /** The place value of bit j of a byte, counting from the top: 2^(7 - j). */
  function Weight(j: nat): (d: nat)
    requires j < 8
    ensures d > 0
  {
    [0x80, 0x40, 0x20, 0x10, 8, 4, 2, 1][j]
  }

  /** Each place value is twice the next, and the place values of j + 1 and 7 - j multiply to 0x40. */
  lemma WeightHalves(j: nat)
    requires j < 7
    ensures Weight(j) == 2 * Weight(j + 1) && Weight(j + 1) * Weight(7 - j) == 0x40
  {
    if j == 0 {
      assert Weight(0) == 0x80 && Weight(1) == 0x40 && Weight(7) == 1;
    } else if j == 1 {
      assert Weight(1) == 0x40 && Weight(2) == 0x20 && Weight(6) == 2;
    } else if j == 2 {
      assert Weight(2) == 0x20 && Weight(3) == 0x10 && Weight(5) == 4;
    } else if j == 3 {
      assert Weight(3) == 0x10 && Weight(4) == 8;
    } else if j == 4 {
      assert Weight(4) == 8 && Weight(5) == 4 && Weight(3) == 0x10;
    } else if j == 5 {
      assert Weight(5) == 4 && Weight(6) == 2 && Weight(2) == 0x20;
    } else {
      assert Weight(6) == 2 && Weight(7) == 1 && Weight(1) == 0x40;
    }
  }

  /** Bit j of v, counting from the top, is the parity of v / 2^(7 - j). */
  lemma MsbBitAt(v: Byte, j: nat)
    requires j < 8
    ensures MsbBits(v)[j] == ((v / Weight(j)) % 2 == 1)
  {
  }

  /** The bits of a byte string, each byte most significant bit first. */
  function BitsOf(bytes: seq<Byte>): (bits: seq<bool>)
    ensures |bits| == 8 * |bytes|
  {
    if bytes == [] then [] else MsbBits(bytes[0]) + BitsOf(bytes[1..])
  }

  function BitValue(b: bool): nat {
    if b then 1 else 0
  }

  /** The byte whose bits, most significant first, are the eight given. */
  function PackByte(bits: seq<bool>): Byte
    requires |bits| == 8
  {
    BitValue(bits[0]) * 0x80 + BitValue(bits[1]) * 0x40 + BitValue(bits[2]) * 0x20 + BitValue(bits[3]) * 0x10
    + BitValue(bits[4]) * 0x08 + BitValue(bits[5]) * 0x04 + BitValue(bits[6]) * 0x02 + BitValue(bits[7])
  }

  /** The whole bytes the chip assembles from received bits, eight at a time; a trailing partial byte is not one. */
  function Pack(bits: seq<bool>): (bytes: seq<Byte>)
    ensures |bytes| == |bits| / 8
    decreases |bits|
  {
    if |bits| < 8 then [] else [PackByte(bits[..8])] + Pack(bits[8..])
  }

  /** Line state after one event. */
  function Step(l: Lines, e: Event): Lines {
    if e.Set? && e.pin == CS then l.(cs := e.high)
    else if e.Set? && e.pin == CLK then l.(clk := e.high)
    else if e.Set? && e.pin == SD0 then l.(sd0 := e.high)
    else l
  }

  /** Line state after a run of events. */
  function Run(evs: seq<Event>, l: Lines): Lines
    decreases |evs|
  {
    if evs == [] then l else Run(evs[1..], Step(l, evs[0]))
  }

  /** What the chip samples at one event: SD0 on a rising CLK edge, or the bits of a block transfer. */
  function Sampled(l: Lines, e: Event): seq<bool> {
    if e.Set? && e.pin == CLK && e.high && !l.clk then [l.sd0]
    else if e.Transmit? then BitsOf(e.bytes)
    else []
  }

  /** Every bit sampled along a run of events, in order. */
  function Samples(evs: seq<Event>, l: Lines): seq<bool>
    decreases |evs|
  {
    if evs == [] then [] else Sampled(l, evs[0]) + Samples(evs[1..], Step(l, evs[0]))
  }

  /** Chip select is low at every event of the run at which a bit is sampled. */
  predicate Selected(evs: seq<Event>, l: Lines)
    decreases |evs|
  {
    evs == [] || ((Sampled(l, evs[0]) != [] ==> !l.cs) && Selected(evs[1..], Step(l, evs[0])))
  }

  /** The level an event drives on pin p, if it drives p. */
  function Mark(e: Event, p: Pin): seq<bool> {
    if e.Set? && e.pin == p then [e.high] else []
  }

  /** The levels driven on pin p along a run of events, in order. */
  function Trace(evs: seq<Event>, p: Pin): seq<bool>
    decreases |evs|
  {
    if evs == [] then []
    else Mark(evs[0], p) + Trace(evs[1..], p)
  }

  /** Number of low-to-high transitions in a sequence of levels, the line having been at level before. */
  function RisingEdges(levels: seq<bool>, before: bool): nat
    decreases |levels|
  {
    if levels == [] then 0
    else (if levels[0] && !before then 1 else 0) + RisingEdges(levels[1..], levels[0])
  }

  // ---------------------------------------------------------------- lemmas

  /** A byte is the sum of its bits: v == sum over k of ((v / 2^k) % 2) * 2^k. */
  lemma BinaryExpansion(v: Byte)
    ensures v == 0x80 * ((v / 0x80) % 2) + 0x40 * ((v / 0x40) % 2) + 0x20 * ((v / 0x20) % 2)
      + 0x10 * ((v / 0x10) % 2) + 8 * ((v / 8) % 2) + 4 * ((v / 4) % 2) + 2 * ((v / 2) % 2) + v % 2
  {
    var q1 := v / 2;
    var q2 := q1 / 2;
    var q3 := q2 / 2;
    var q4 := q3 / 2;
    var q5 := q4 / 2;
    var q6 := q5 / 2;
    var q7 := q6 / 2;
    var b0, b1, b2, b3, b4, b5, b6 := v % 2, q1 % 2, q2 % 2, q3 % 2, q4 % 2, q5 % 2, q6 % 2;
    Telescope(v, q1, q2, q3, q4, q5, q6, q7, b0, b1, b2, b3, b4, b5, b6);
    assert q2 == v / 4 && q3 == v / 8 && q4 == v / 0x10;
    assert q5 == v / 0x20 && q6 == v / 0x40 && q7 == v / 0x80 && q7 % 2 == q7;
  }

  /** Seven halvings with remainders b0..b6 leave q7: v is q7 followed by the remainders in binary. */
  lemma Telescope(v: int, q1: int, q2: int, q3: int, q4: int, q5: int, q6: int, q7: int,
                  b0: int, b1: int, b2: int, b3: int, b4: int, b5: int, b6: int)
    requires v == 2 * q1 + b0 && q1 == 2 * q2 + b1 && q2 == 2 * q3 + b2 && q3 == 2 * q4 + b3
    requires q4 == 2 * q5 + b4 && q5 == 2 * q6 + b5 && q6 == 2 * q7 + b6
    ensures v == 0x80 * q7 + 0x40 * b6 + 0x20 * b5 + 0x10 * b4 + 8 * b3 + 4 * b2 + 2 * b1 + b0
  {
  }

  /** The chip recovers every byte from its bits. */
  lemma PackByteOfBits(v: Byte)
    ensures PackByte(MsbBits(v)) == v
  {
    var bits := MsbBits(v);
    var b7, b6, b5, b4 := (v / 0x80) % 2, (v / 0x40) % 2, (v / 0x20) % 2, (v / 0x10) % 2;
    var b3, b2, b1, b0 := (v / 8) % 2, (v / 4) % 2, (v / 2) % 2, v % 2;
    Parity(v / 0x80); Parity(v / 0x40); Parity(v / 0x20); Parity(v / 0x10);
    Parity(v / 8); Parity(v / 4); Parity(v / 2); Parity(v);
    WeighBits(bits, b7, b6, b5, b4, b3, b2, b1, b0);
    BinaryExpansion(v);
  }

  /** PackByte weighs the eight bits by their place values. */
  lemma WeighBits(bits: seq<bool>, b7: int, b6: int, b5: int, b4: int, b3: int, b2: int, b1: int, b0: int)
    requires |bits| == 8
    requires BitValue(bits[0]) == b7 && BitValue(bits[1]) == b6 && BitValue(bits[2]) == b5 && BitValue(bits[3]) == b4
    requires BitValue(bits[4]) == b3 && BitValue(bits[5]) == b2 && BitValue(bits[6]) == b1 && BitValue(bits[7]) == b0
    ensures PackByte(bits) == 0x80 * b7 + 0x40 * b6 + 0x20 * b5 + 0x10 * b4 + 8 * b3 + 4 * b2 + 2 * b1 + b0
  {
  }

  lemma Parity(x: nat)
    ensures BitValue(x % 2 == 1) == x % 2
  {
  }

  lemma {:induction false} BitsOfAppend(a: seq<Byte>, b: seq<Byte>)
    ensures BitsOf(a + b) == BitsOf(a) + BitsOf(b)
    decreases |a|
  {
    if a == [] {
      assert a + b == b;
    } else {
      assert (a + b)[1..] == a[1..] + b;
      BitsOfAppend(a[1..], b);
    }
  }

  /** The bits of a non-empty byte string end with the bits of its last byte. */
  lemma BitsOfLast(bytes: seq<Byte>)
    requires bytes != []
    ensures BitsOf(bytes) == BitsOf(bytes[..|bytes| - 1]) + MsbBits(bytes[|bytes| - 1])
  {
    var n := |bytes| - 1;
    assert bytes[..n] + bytes[n..] == bytes;
    assert bytes[n..] == [bytes[n]];
    BitsOfAppend(bytes[..n], bytes[n..]);
    BitsOfOne(bytes[n]);
  }

  lemma BitsOfOne(v: Byte)
    ensures BitsOf([v]) == MsbBits(v)
  {
    assert [v][1..] == [];
  }

  /** Decoding the bits of a byte string gives the byte string back. */
  lemma {:induction false} PackBitsOf(bytes: seq<Byte>)
    ensures Pack(BitsOf(bytes)) == bytes
    decreases |bytes|
  {
    if bytes != [] {
      var bits := BitsOf(bytes);
      assert bits[..8] == MsbBits(bytes[0]);
      assert bits[8..] == BitsOf(bytes[1..]);
      PackByteOfBits(bytes[0]);
      PackBitsOf(bytes[1..]);
    }
  }

  /** Running two logs one after the other: states compose, samples and traces concatenate. */
  lemma {:induction false} RunAppend(a: seq<Event>, b: seq<Event>, l: Lines)
    ensures Run(a + b, l) == Run(b, Run(a, l))
    ensures Samples(a + b, l) == Samples(a, l) + Samples(b, Run(a, l))
    ensures Selected(a + b, l) == (Selected(a, l) && Selected(b, Run(a, l)))
    decreases |a|
  {
    if a == [] {
      assert a + b == b;
    } else {
      assert (a + b)[0] == a[0];
      assert (a + b)[1..] == a[1..] + b;
      RunAppend(a[1..], b, Step(l, a[0]));
    }
  }

  /** A single event: its step, its samples, and its level if it drives p. */
  lemma RunOne(e: Event, l: Lines, p: Pin)
    ensures Run([e], l) == Step(l, e)
    ensures Samples([e], l) == Sampled(l, e)
    ensures Selected([e], l) == (Sampled(l, e) != [] ==> !l.cs)
    ensures Trace([e], p) == Mark(e, p)
  {
    assert [e][1..] == [];
  }

  /** The levels four or five events drive on p, event by event. */
  lemma TraceFour(a: Event, b: Event, c: Event, d: Event, p: Pin)
    ensures Trace([a, b, c, d], p) == Mark(a, p) + (Mark(b, p) + (Mark(c, p) + Mark(d, p)))
  {
    assert [a, b, c, d] == [a] + ([b] + ([c] + [d]));
    TraceCons(a, [b] + ([c] + [d]), p);
    TraceCons(b, [c] + [d], p);
    TraceCons(c, [d], p);
    TraceCons(d, [], p);
    assert Mark(d, p) + [] == Mark(d, p);
  }

  lemma TraceFive(a: Event, b: Event, c: Event, d: Event, e: Event, p: Pin)
    ensures Trace([a, b, c, d, e], p) == Mark(a, p) + (Mark(b, p) + (Mark(c, p) + (Mark(d, p) + Mark(e, p))))
  {
    var rest := [b, c, d, e];
    assert [a, b, c, d, e] == [a] + rest;
    TraceCons(a, rest, p);
    TraceFour(b, c, d, e, p);
  }

  lemma TraceCons(e: Event, rest: seq<Event>, p: Pin)
    ensures Trace([e] + rest, p) == Mark(e, p) + Trace(rest, p)
  {
    assert ([e] + rest)[1..] == rest;
  }

  /** Three logs one after the other drive the levels of each in turn. */
  lemma TraceThree(a: seq<Event>, b: seq<Event>, c: seq<Event>, p: Pin)
    ensures Trace(a + b + c, p) == Trace(a, p) + Trace(b, p) + Trace(c, p)
  {
    TraceAppend(a, b, p);
    TraceAppend(a + b, c, p);
  }

  lemma {:induction false} TraceAppend(a: seq<Event>, b: seq<Event>, p: Pin)
    ensures Trace(a + b, p) == Trace(a, p) + Trace(b, p)
    decreases |a|
  {
    if a == [] {
      assert a + b == b;
    } else {
      assert (a + b)[0] == a[0];
      assert (a + b)[1..] == a[1..] + b;
      TraceAppend(a[1..], b, p);
    }
  }
}
