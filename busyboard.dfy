/** The host side of the busyboard protocol, host_software/busyboard.c: the
    board holds a 56-bit output shift register (eight tristate-enable bits,
    then six output ports) and a 48-bit input shift register, driven
    through four parallel-port control lines and one data line.

    `set_bit` becomes an event `Set(line, level)` on a trace and `read_data`
    a `Read` event answered by a status-byte oracle; every call to
    `busyboard_out` and `busyboard_in` is also recorded on an abstract log
    of snapshots, which the programs built on this library are specified
    against. */
module Busyboard {

  const NPorts: nat := 6


  /** `enum ppbit`. */
  datatype Line = Strobe | Data | LatchOut | LatchIn | NLdIn

  /** One `set_bit(fd, line, level)` call, or one `read_data(fd)` call. */
  datatype Event = Set(line: Line, level: bool) | Read

  /** What `set_bit` hands the parallel-port driver: a masked write of the
      control register (`PPFCONTROL`) or a write of the data register
      (`PPWDATA`). */
  datatype PortOp = Frob(mask: bv8, val: bv8) | WriteData(x: bv8)

  /** `bit_pp[]`: the control-register bit of each line (`PARPORT_CONTROL_STROBE`
      0x01, `PARPORT_CONTROL_AUTOFD` 0x02 for both latches,
      `PARPORT_CONTROL_SELECT` 0x08). */
  function ControlBit(l: Line): bv8
  {
    match l
    case Strobe => 0x01
    case Data => 0x00
    case LatchOut => 0x02
    case LatchIn => 0x02
    case NLdIn => 0x08
  }

  /** `inverted[]`: every line is driven active-low. */
  predicate Inverted(l: Line) { true }

  /** `set_bit`: a control line gets its bit set iff `inverted ^ val`; the
      data line gets 1 or 0. */
  function PortWrite(l: Line, level: bool): PortOp
  {
    if l != Data then Frob(ControlBit(l), if Inverted(l) != level then ControlBit(l) else 0)
    else WriteData(if level then 1 else 0)
  }

  /** The control lines are inverted: a line set to 1 has its bit cleared,
      one set to 0 has it set; the two latch lines are the same bit. */
  lemma PortWriteActiveLow(l: Line, level: bool)
    ensures l != Data ==> PortWrite(l, level) == Frob(ControlBit(l), if level then 0 else ControlBit(l))
    ensures l != Data ==> ControlBit(l) != 0
    ensures PortWrite(Data, level).x == (if level then 1 else 0)
    ensures PortWrite(LatchOut, level) == PortWrite(LatchIn, level)
  {
  }

  /** `read_data`: the board's serial output is the status register's
      0x40 bit (`PARPORT_STATUS_ACK`). */
  predicate Sample(status: bv8)
  {
    status & 0x40 != 0
  }

  // ---------------------------------------------------------------------
  // Bits and bytes

  predicate Bit(b: bv8, k: nat)
    requires k < 8
  {
    (b >> k) & 1 == 1
  }

  /** The bits of a byte, most significant first. */
  function BitsOf(b: bv8): (r: seq<bool>)
    ensures |r| == 8
  {
    seq(8, j requires 0 <= j < 8 => Bit(b, 7 - j))
  }

  /** `bit << k` for a bit of 0 or 1. */
  function Place(x: bool, k: nat): bv8
    requires k < 8
  {
    if x then (1 as bv8) << k else 0
  }

  /** `acc | bit << k`. */
  function Pack(acc: bv8, x: bool, k: nat): bv8
    requires k < 8
  {
    acc | Place(x, k)
  }

  /** The first `n` bits ORed into place, most significant first: the value
      `in_state[...] |= bit << (7 - j)` has after `n` reads. */
  function PackPrefix(bits: seq<bool>, n: nat): bv8
    requires n <= |bits| && n <= 8
  {
    if n == 0 then 0 else Pack(PackPrefix(bits, n - 1), bits[n - 1], 7 - (n - 1))
  }

  function Byte(bits: seq<bool>): bv8
    requires |bits| == 8
  {
    PackPrefix(bits, 8)
  }

  lemma ByteClosed(bits: seq<bool>)
    requires |bits| == 8
    ensures Byte(bits) == Place(bits[0], 7) | Place(bits[1], 6) | Place(bits[2], 5) | Place(bits[3], 4)
      | Place(bits[4], 3) | Place(bits[5], 2) | Place(bits[6], 1) | Place(bits[7], 0)
  {
    assert PackPrefix(bits, 1) == Place(bits[0], 7);
    assert PackPrefix(bits, 2) == PackPrefix(bits, 1) | Place(bits[1], 6);
    assert PackPrefix(bits, 3) == PackPrefix(bits, 2) | Place(bits[2], 5);
    assert PackPrefix(bits, 4) == PackPrefix(bits, 3) | Place(bits[3], 4);
    assert PackPrefix(bits, 5) == PackPrefix(bits, 4) | Place(bits[4], 3);
    assert PackPrefix(bits, 6) == PackPrefix(bits, 5) | Place(bits[5], 2);
    assert PackPrefix(bits, 7) == PackPrefix(bits, 6) | Place(bits[6], 1);
  }

  /** Packing the bits of a byte gives the byte back ... */
  lemma ByteBits(b: bv8)
    ensures Byte(BitsOf(b)) == b
  {
    ByteClosed(BitsOf(b));
  }

  /** ... and the bits of a packed byte are the bits packed. */
  lemma BitsByte(bits: seq<bool>)
    requires |bits| == 8
    ensures BitsOf(Byte(bits)) == bits
  {
    ByteClosed(bits);
  }

  /** The low byte of the `unsigned` tristate mask: the part that is sent. */
  function LowByte(t: bv32): bv8
  {
    (t & 0xff) as bv8
  }

  // ---------------------------------------------------------------------
  // The output shift: busyboard_out

  /** One bit clocked into the output register: data, then a strobe pulse. */
  function BitEvents(v: bool): seq<Event>
  {
    [Set(Data, v), Set(Strobe, true), Set(Strobe, false)]
  }

  /** The events that clock `bits` out, first bit first. */
  function ShiftBits(bits: seq<bool>): (r: seq<Event>)
    ensures |r| == 3 * |bits|
    decreases |bits|
  {
    if |bits| == 0 then [] else ShiftBits(bits[..|bits| - 1]) + BitEvents(bits[|bits| - 1])
  }

  lemma ShiftStep(e: seq<Event>, bits: seq<bool>, k: nat, ev: seq<Event>)
    requires k < |bits| && ev == e + ShiftBits(bits[..k]) + BitEvents(bits[k])
    ensures ev == e + ShiftBits(bits[..k + 1])
  {
    assert bits[..k + 1][..k] == bits[..k];
  }

  /** The bits of the first `n` ports `busyboard_out` sends: `out_state[5]`,
      then `out_state[4]`, and so on, each from bit 7 down. */
  function PortBits(out: seq<bv8>, n: nat): (r: seq<bool>)
    requires |out| == NPorts && n <= NPorts
    ensures |r| == 8 * n
  {
    if n == 0 then [] else PortBits(out, n - 1) + BitsOf(out[NPorts - n])
  }

  /** The 56 bits `busyboard_out` sends, in order: the tristate mask from
      bit 7 down, then the six ports. */
  function OutBits(t: bv32, out: seq<bv8>): (r: seq<bool>)
    requires |out| == NPorts
    ensures |r| == 56
  {
    BitsOf(LowByte(t)) + PortBits(out, NPorts)
  }

  /** The `k`-th group of eight port bits is `out_state[5 - k]`. */
  lemma {:induction false} PortBitsAt(out: seq<bv8>, n: nat, k: nat)
    requires |out| == NPorts && k < n <= NPorts
    ensures PortBits(out, n)[8 * k..8 * k + 8] == BitsOf(out[5 - k])
    decreases n
  {
    if k < n - 1 {
      PortBitsAt(out, n - 1, k);
      assert PortBits(out, n)[8 * k..8 * k + 8] == PortBits(out, n - 1)[8 * k..8 * k + 8];
    } else {
      assert PortBits(out, n)[8 * k..8 * k + 8] == BitsOf(out[NPorts - n]);
    }
  }

  lemma {:induction false} ShiftAppend(a: seq<bool>, b: seq<bool>)
    ensures ShiftBits(a + b) == ShiftBits(a) + ShiftBits(b)
    decreases |b|
  {
    if |b| == 0 {
      assert a + b == a;
    } else {
      var b' := b[..|b| - 1];
      assert (a + b)[..|a + b| - 1] == a + b';
      ShiftAppend(a, b');
    }
  }

  /** Bit `k` of the full `unsigned` tristate mask: `(trimask >> k) & 1`. */
  predicate MaskBit(t: bv32, k: nat)
    requires k < 32
  {
    (t >> k) & 1 == 1
  }

  /** The eight mask bits sent are the bits of its low byte. */
  lemma MaskBitLow(t: bv32, k: nat)
    requires k < 8
    ensures MaskBit(t, k) == Bit(LowByte(t), k)
  {
  }

  lemma OutPortStep(e: seq<Event>, out: seq<bv8>, i: nat, ev: seq<Event>)
    requires |out| == NPorts && i < NPorts
    requires ev == e + ShiftBits(PortBits(out, i)) + ShiftBits(BitsOf(out[NPorts - 1 - i]))
    ensures ev == e + ShiftBits(PortBits(out, i + 1))
  {
    ShiftAppend(PortBits(out, i), BitsOf(out[NPorts - 1 - i]));
  }

  lemma OutFinish(e0: seq<Event>, t: bv32, out: seq<bv8>, e2: seq<Event>, ev: seq<Event>)
    requires |out| == NPorts
    requires e2 == e0 + ShiftBits(BitsOf(LowByte(t))) + ShiftBits(PortBits(out, NPorts))
    requires ev == e2 + [Set(LatchOut, true)] + [Set(LatchOut, false)]
    ensures ev == e0 + OutEvents(t, out)
  {
    ShiftAppend(BitsOf(LowByte(t)), PortBits(out, NPorts));
  }

  /** Everything `busyboard_out` does: 56 bits, then one output-latch pulse. */
  function OutEvents(t: bv32, out: seq<bv8>): (r: seq<Event>)
    requires |out| == NPorts
  {
    ShiftBits(OutBits(t, out)) + [Set(LatchOut, true), Set(LatchOut, false)]
  }

  /** The 56 bits read back as a tristate byte and six ports, in the order
      they were sent. */
  function Unshift(bits: seq<bool>): (r: (bv8, seq<bv8>))
    requires |bits| == 56
    ensures |r.1| == NPorts
  {
    (Byte(bits[..8]), seq(NPorts, m requires 0 <= m < NPorts => Byte(bits[8 + 8 * (5 - m)..16 + 8 * (5 - m)])))
  }

  /** The bits sent decode to the low byte of the tristate mask and the six
      output ports. */
  lemma OutBitsDecode(t: bv32, out: seq<bv8>)
    requires |out| == NPorts
    ensures Unshift(OutBits(t, out)) == (LowByte(t), out)
  {
    var bits := OutBits(t, out);
    assert bits[..8] == BitsOf(LowByte(t));
    ByteBits(LowByte(t));
    var r := Unshift(bits).1;
    forall m | 0 <= m < NPorts ensures r[m] == out[m] {
      PortDecode(t, out, m);
    }
    assert r == out;
  }

  lemma PortDecode(t: bv32, out: seq<bv8>, m: nat)
    requires |out| == NPorts && m < NPorts
    ensures Byte(OutBits(t, out)[8 + 8 * (5 - m)..16 + 8 * (5 - m)]) == out[m]
  {
    var ps := PortBits(out, NPorts);
    var k := 5 - m;
    PortBitsAt(out, NPorts, k);
    assert OutBits(t, out)[8 + 8 * k..16 + 8 * k] == ps[8 * k..8 * k + 8];
    ByteBits(out[m]);
  }

  // ---------------------------------------------------------------------
  // The board's side: a shift register clocked on the strobe's rising edge

  /** The receiving shift register: the data line, the strobe and latch
      levels, every bit shifted in so far, and what the last latch pulse
      captured. */
  datatype Rx = Rx(data: bool, strobe: bool, latch: bool, shifted: seq<bool>, latched: seq<bool>)

  function Step(rx: Rx, e: Event): Rx
  {
    match e
    case Set(Data, v) => rx.(data := v)
    case Set(Strobe, v) =>
      rx.(strobe := v, shifted := if v && !rx.strobe then rx.shifted + [rx.data] else rx.shifted)
    case Set(LatchOut, v) =>
      rx.(latch := v, latched := if v && !rx.latch then rx.shifted else rx.latched)
    case _ => rx
  }

  function Run(rx: Rx, es: seq<Event>): Rx
    decreases |es|
  {
    if |es| == 0 then rx else Run(Step(rx, es[0]), es[1..])
  }

  lemma {:induction false} RunAppend(rx: Rx, a: seq<Event>, b: seq<Event>)
    ensures Run(rx, a + b) == Run(Run(rx, a), b)
    decreases |a|
  {
    if |a| == 0 {
      assert a + b == b;
    } else {
      assert (a + b)[1..] == a[1..] + b;
      RunAppend(Step(rx, a[0]), a[1..], b);
    }
  }

  /** Clocking bits out with the strobe idle low shifts exactly those bits
      in, one per rising edge, and leaves the strobe low. */
  lemma {:induction false} RunShift(rx: Rx, bits: seq<bool>)
    requires !rx.strobe
    ensures var r := Run(rx, ShiftBits(bits));
      && r.shifted == rx.shifted + bits && !r.strobe
      && r.latch == rx.latch && r.latched == rx.latched
    decreases |bits|
  {
    if |bits| > 0 {
      var init := bits[..|bits| - 1];
      RunShift(rx, init);
      RunAppend(rx, ShiftBits(init), BitEvents(bits[|bits| - 1]));
      assert rx.shifted + init + [bits[|bits| - 1]] == rx.shifted + bits;
    }
  }

  /** The shift-out protocol works: after `busyboard_out` the board's
      output latch holds the last 56 bits shifted, and they decode to the
      tristate byte and the six ports; 56 rising strobe edges happened. */
  lemma OutRoundTrip(rx: Rx, t: bv32, out: seq<bv8>)
    requires |out| == NPorts && !rx.strobe && !rx.latch
    ensures var r := Run(rx, OutEvents(t, out));
      && r.latched == rx.shifted + OutBits(t, out)
      && |r.shifted| == |rx.shifted| + 56
      && Unshift(r.latched[|r.latched| - 56..]) == (LowByte(t), out)
      && !r.strobe && !r.latch
  {
    var bits := OutBits(t, out);
    RunShift(rx, bits);
    RunAppend(rx, ShiftBits(bits), [Set(LatchOut, true), Set(LatchOut, false)]);
    var r := Run(rx, OutEvents(t, out));
    assert r.latched[|r.latched| - 56..] == bits;
    OutBitsDecode(t, out);
  }

  /** The only output-latch events of `busyboard_out` are one pulse, at
      the end. */
  lemma OutLatchOnce(t: bv32, out: seq<bv8>)
    requires |out| == NPorts
    ensures var es := OutEvents(t, out);
      && es[|es| - 2..] == [Set(LatchOut, true), Set(LatchOut, false)]
      && forall n :: 0 <= n < |es| - 2 ==> es[n].Set? && es[n].line != LatchOut
  {
    ShiftOnlyDataStrobe(OutBits(t, out));
  }

  lemma {:induction false} ShiftOnlyDataStrobe(bits: seq<bool>)
    ensures forall n :: 0 <= n < |ShiftBits(bits)| ==>
      ShiftBits(bits)[n].Set? && ShiftBits(bits)[n].line in {Data, Strobe}
    decreases |bits|
  {
    if |bits| > 0 {
      ShiftOnlyDataStrobe(bits[..|bits| - 1]);
    }
  }

  // ---------------------------------------------------------------------
  // The input shift: busyboard_in

  /** Latch the inputs, load them into the input register, then 48 reads
      each followed by a strobe pulse. */
  const InPrefix: seq<Event> := [Set(LatchIn, true), Set(LatchIn, false), Set(NLdIn, false), Set(NLdIn, true)]

  lemma InPrefixEvents(e: seq<Event>, ev: seq<Event>)
    requires ev == e + [Set(LatchIn, true)] + [Set(LatchIn, false)] + [Set(NLdIn, false)] + [Set(NLdIn, true)]
    ensures ev == e + InPrefix
  {
  }

  function ReadEvents(n: nat): (r: seq<Event>)
    ensures |r| == 3 * n
  {
    seq(3 * n, k => if k % 3 == 0 then Read else Set(Strobe, k % 3 == 1))
  }

  /** The values of `n` reads starting with read number `base`. */
  function Samples(status: nat -> bv8, base: nat, n: nat): (r: seq<bool>)
    ensures |r| == n
  {
    seq(n, k requires 0 <= k < n => Sample(status(base + k)))
  }

  /** The first `j` of the eight reads from read `n` on, ORed into place
      most significant first: what `in_state[idx]` holds after `j` rounds
      of the inner loop of `busyboard_in`. */
  function PackReads(status: nat -> bv8, n: nat, j: nat): bv8
    requires j <= 8
  {
    if j == 0 then 0 else Pack(PackReads(status, n, j - 1), Sample(status(n + j - 1)), 7 - (j - 1))
  }

  /** The port eight reads from read `n` on fill. */
  function ReadByte(status: nat -> bv8, n: nat): bv8
  {
    PackReads(status, n, 8)
  }

  lemma {:induction false} PackReadsPrefix(status: nat -> bv8, n: nat, j: nat)
    requires j <= 8
    ensures PackReads(status, n, j) == PackPrefix(Samples(status, n, 8), j)
  {
    if j > 0 {
      PackReadsPrefix(status, n, j - 1);
    }
  }

  lemma ReadStep(e: seq<Event>, j: nat, ev: seq<Event>)
    requires ev == e + ReadEvents(j) + [Read] + [Set(Strobe, true)] + [Set(Strobe, false)]
    ensures ev == e + ReadEvents(j + 1)
  {
  }

  lemma ReadsStep(e: seq<Event>, a: nat, b: nat, ev: seq<Event>)
    requires ev == e + ReadEvents(a) + ReadEvents(b)
    ensures ev == e + ReadEvents(a + b)
  {
    ReadEventsAdd(a, b);
  }

  lemma ReadEventsAdd(a: nat, b: nat)
    ensures ReadEvents(a + b) == ReadEvents(a) + ReadEvents(b)
  {
    var l := ReadEvents(a) + ReadEvents(b);
    forall k | 0 <= k < 3 * (a + b)
      ensures ReadEvents(a + b)[k] == l[k]
    {
      if k >= 3 * a {
        ModShift(k, a);
      }
    }
  }

  /** Skipping whole rounds of three keeps the phase within a round. */
  lemma {:induction false} ModShift(k: int, a: nat)
    requires k >= 3 * a
    ensures (k - 3 * a) % 3 == k % 3
    decreases a
  {
    if a > 0 {
      ModShift(k - 3, a - 1);
    }
  }

  /** The ports the first `m` groups of eight reads from read `n` on fill:
      group `g` becomes `in_state[5 - g]`, its first read the most
      significant bit. */
  function InPorts(status: nat -> bv8, n: nat, m: nat): (r: seq<bv8>)
    requires m <= NPorts
    ensures |r| == m
    decreases m
  {
    if m == 0 then [] else [ReadByte(status, n + 8 * (m - 1))] + InPorts(status, n, m - 1)
  }

  /** Filling port `5 - i` from reads `8 * i` to `8 * i + 7` extends the
      ports already filled. */
  lemma FillPort(status: nat -> bv8, base: nat, i: nat, n: nat, s: seq<bv8>, s': seq<bv8>)
    requires |s| == NPorts && i < NPorts && n == base + 8 * i
    requires s[NPorts - i..] == InPorts(status, base, i)
    requires s' == s[NPorts - i - 1 := ReadByte(status, n)]
    ensures s'[NPorts - (i + 1)..] == InPorts(status, base, i + 1)
  {
    assert s'[NPorts - (i + 1)..] == [ReadByte(status, n)] + s[NPorts - i..];
  }

  /** Port `5 - g` of `m` filled ports is group `g`. */
  lemma {:induction false} InPortsAt(status: nat -> bv8, n: nat, m: nat, g: nat)
    requires g < m <= NPorts
    ensures InPorts(status, n, m)[m - 1 - g] == ReadByte(status, n + 8 * g)
    decreases m
  {
    if g < m - 1 {
      InPortsAt(status, n, m - 1, g);
    }
  }

  /** Read `j` of group `i` is bit `7 - j` of `in_state[5 - i]`. */
  lemma InputsBit(status: nat -> bv8, n: nat, i: nat, j: nat)
    requires i < NPorts && j < 8
    ensures Bit(InputsAt(status, n)[5 - i], 7 - j) == Sample(status(n + 8 * i + j))
  {
    InPortsAt(status, n, NPorts, i);
    SampleBit(status, n + 8 * i, j);
  }

  lemma SampleBit(status: nat -> bv8, n: nat, j: nat)
    requires j < 8
    ensures Bit(ReadByte(status, n), 7 - j) == Sample(status(n + j))
  {
    PackReadsPrefix(status, n, 8);
    ByteBit(Samples(status, n, 8), j);
  }

  lemma ByteBit(g: seq<bool>, j: nat)
    requires |g| == 8 && j < 8
    ensures Bit(Byte(g), 7 - j) == g[j]
  {
    BitsByte(g);
    assert BitsOf(Byte(g))[j] == Bit(Byte(g), 7 - j);
  }

  // ---------------------------------------------------------------------
  // The board record and the library calls

  /** What happened at the board, as the programs built on the library see
      it: a reset, a snapshot written out, or the six input ports sampled. */
  datatype Op = Reset | Wrote(trimask: bv32, out: seq<bv8>) | Sampled(ports: seq<bv8>)

  /** The snapshots a host routine writes out and the outputs it leaves
      behind. */
  datatype After = After(ops: seq<Op>, out: seq<bv8>)

  /** The six input ports a `busyboard_in` call fills in when the status
      oracle's reads start at number `n`. */
  function InputsAt(status: nat -> bv8, n: nat): (r: seq<bv8>)
    ensures |r| == NPorts
  {
    InPorts(status, n, NPorts)
  }

  /** The lines `init_busyboard` sets, in order. */
  const InitEvents: seq<Event> :=
    [Set(Data, false), Set(LatchOut, false), Set(LatchIn, false), Set(Strobe, false), Set(NLdIn, true)]

  /** `struct busyboard`, with the port replaced by the event trace and the
      status-register oracle: `status(n)` is the byte the `n`-th read sees. */
  class Board {
    const outState: array<bv8>
    const inState: array<bv8>
    var trimask: bv32
    var events: seq<Event>
    var nReads: nat
    const status: nat -> bv8
    ghost var log: seq<Op>

    ghost predicate Valid()
      reads this
    {
      outState.Length == NPorts && inState.Length == NPorts && outState != inState
    }

    /** `init_busyboard`: all outputs and the mask cleared, and the five
        lines put in their idle levels. */
    constructor (status: nat -> bv8)
      ensures Valid() && fresh(outState) && fresh(inState)
      ensures trimask == 0 && outState[..] == [0, 0, 0, 0, 0, 0]
      ensures events == InitEvents && nReads == 0 && this.status == status && log == [Reset]
    {
      outState := new bv8[NPorts](_ => 0);
      inState := new bv8[NPorts](_ => 0);
      this.status := status;
      trimask := 0;
      events := [];
      nReads := 0;
      log := [Reset];
      new;
      var i := 0;
      while i < NPorts
        invariant 0 <= i <= NPorts && forall k :: 0 <= k < i ==> outState[k] == 0
        invariant events == [] && trimask == 0 && nReads == 0 && log == [Reset] && this.status == status
      {
        outState[i] := 0;
        i := i + 1;
      }
      SetBit(Data, false);
      SetBit(LatchOut, false);
      SetBit(LatchIn, false);
      SetBit(Strobe, false);
      SetBit(NLdIn, true);
      assert outState[..] == [0, 0, 0, 0, 0, 0];
    }

    /** `set_bit`. */
    method SetBit(l: Line, level: bool)
      modifies this
      ensures events == old(events) + [Set(l, level)]
      ensures trimask == old(trimask) && nReads == old(nReads) && log == old(log)
    {
      events := events + [Set(l, level)];
    }

    /** One bit clocked out: the data line, then a strobe pulse. */
    method ClockBit(v: bool)
      modifies this
      ensures events == old(events) + BitEvents(v)
      ensures trimask == old(trimask) && nReads == old(nReads) && log == old(log)
    {
      SetBit(Data, v);
      SetBit(Strobe, true);
      SetBit(Strobe, false);
    }

    /** `read_data`. */
    method ReadData() returns (bit: bool)
      modifies this
      ensures bit == Sample(status(old(nReads))) && nReads == old(nReads) + 1
      ensures events == old(events) + [Read]
      ensures trimask == old(trimask) && log == old(log)
    {
      bit := Sample(status(nReads));
      nReads := nReads + 1;
      events := events + [Read];
    }

    /** `busyboard_out`. */
    method Out()
      requires Valid()
      modifies this
      ensures Valid() && trimask == old(trimask) && nReads == old(nReads)
      ensures events == old(events) + OutEvents(trimask, outState[..])
      ensures log == old(log) + [Wrote(trimask, outState[..])]
    {
      ghost var out := outState[..];
      ghost var tri := BitsOf(LowByte(trimask));
      ghost var e0 := events;
      ShiftMask();
      var i := 0;
      while i < NPorts
        invariant 0 <= i <= NPorts && trimask == old(trimask) && nReads == old(nReads) && log == old(log)
        invariant outState[..] == out
        invariant events == e0 + ShiftBits(tri) + ShiftBits(PortBits(out, i))
      {
        ghost var e1 := events;
        ShiftByte(outState[NPorts - 1 - i]);
        OutPortStep(e0 + ShiftBits(tri), out, i, events);
        i := i + 1;
      }
      ghost var e2 := events;
      SetBit(LatchOut, true);
      SetBit(LatchOut, false);
      OutFinish(e0, trimask, out, e2, events);
      log := log + [Wrote(trimask, outState[..])];
    }

    /** The first loop of `busyboard_out`: the tristate mask, bit 7 down. */
    method ShiftMask()
      modifies this
      ensures events == old(events) + ShiftBits(BitsOf(LowByte(trimask)))
      ensures trimask == old(trimask) && nReads == old(nReads) && log == old(log)
    {
      ghost var tri := BitsOf(LowByte(trimask));
      var i := 0;
      while i < 8
        invariant 0 <= i <= 8 && trimask == old(trimask) && nReads == old(nReads) && log == old(log)
        invariant events == old(events) + ShiftBits(tri[..i])
      {
        var oe := MaskBit(trimask, 7 - i);
        MaskBitLow(trimask, 7 - i);
        ClockBit(oe);
        ShiftStep(old(events), tri, i, events);
        i := i + 1;
      }
      assert tri[..8] == tri;
    }

    /** The inner loop of `busyboard_out`: one byte, from bit 7 down. */
    method ShiftByte(b: bv8)
      modifies this
      ensures events == old(events) + ShiftBits(BitsOf(b))
      ensures trimask == old(trimask) && nReads == old(nReads) && log == old(log)
    {
      ghost var port := BitsOf(b);
      var j := 0;
      while j < 8
        invariant 0 <= j <= 8 && trimask == old(trimask) && nReads == old(nReads) && log == old(log)
        invariant events == old(events) + ShiftBits(port[..j])
      {
        var bit := Bit(b, 7 - j);
        ClockBit(bit);
        ShiftStep(old(events), port, j, events);
        j := j + 1;
      }
      assert port[..8] == port;
    }

    /** The inner loop of `busyboard_in`: eight reads packed into
        `in_state[idx]`, the first read the most significant bit. */
    method ReadPort(idx: nat)
      requires Valid() && idx < NPorts
      modifies this, inState
      ensures trimask == old(trimask) && log == old(log) && nReads == old(nReads) + 8
      ensures events == old(events) + ReadEvents(8)
      ensures inState[..] == old(inState[..])[idx := ReadByte(status, old(nReads))]
    {
      ghost var r0 := nReads;
      ghost var e0 := events;
      ghost var s0 := inState[..];
      inState[idx] := 0;
      var j := 0;
      while j < 8
        invariant 0 <= j <= 8 && trimask == old(trimask) && log == old(log)
        invariant nReads == r0 + j && events == e0 + ReadEvents(j)
        invariant inState[..] == s0[idx := PackReads(status, r0, j)]
      {
        var bit := ReadData();
        inState[idx] := Pack(inState[idx], bit, 7 - j);
        SetBit(Strobe, true);
        SetBit(Strobe, false);
        ReadStep(e0, j, events);
        j := j + 1;
      }
    }

    /** The outer loop of `busyboard_in`: six ports, `in_state[5]` first. */
    method ReadPorts()
      requires Valid()
      modifies this, inState
      ensures trimask == old(trimask) && log == old(log) && nReads == old(nReads) + 48
      ensures events == old(events) + ReadEvents(48)
      ensures inState[..] == InputsAt(status, old(nReads))
    {
      ghost var r0 := nReads;
      var i := 0;
      while i < NPorts
        invariant 0 <= i <= NPorts && trimask == old(trimask) && log == old(log)
        invariant nReads == r0 + 8 * i && events == old(events) + ReadEvents(8 * i)
        invariant inState[..][NPorts - i..] == InPorts(status, r0, i)
      {
        var idx := NPorts - i - 1;
        ghost var before := inState[..];
        ghost var n := nReads;
        ReadPort(idx);
        ReadsStep(old(events), 8 * i, 8, events);
        FillPort(status, r0, i, n, before, inState[..]);
        i := i + 1;
      }
      assert inState[..][0..] == inState[..];
    }

    /** `busyboard_in`: latches and loads the inputs, reads the 48 input
        bits into `in_state`, then refreshes the outputs, which the input
        strobes have disturbed. */
    method In()
      requires Valid()
      modifies this, inState
      ensures Valid() && trimask == old(trimask) && outState[..] == old(outState[..])
      ensures nReads == old(nReads) + 48
      ensures inState[..] == InputsAt(status, old(nReads))
      ensures events == old(events) + InPrefix + ReadEvents(48) + OutEvents(trimask, outState[..])
      ensures log == old(log) + [Sampled(inState[..]), Wrote(trimask, outState[..])]
    {
      SetBit(LatchIn, true);
      SetBit(LatchIn, false);
      SetBit(NLdIn, false);
      SetBit(NLdIn, true);
      InPrefixEvents(old(events), events);
      ReadPorts();
      log := log + [Sampled(inState[..])];
      Out();
    }
  }

  /** `busyboard_out` as the programs built on the library see it: one
      more snapshot on the log. */
  method Snapshot(b: Board)
    requires b.Valid()
    modifies b
    ensures b.Valid() && b.trimask == old(b.trimask) && b.nReads == old(b.nReads)
    ensures b.log == old(b.log) + [Wrote(b.trimask, b.outState[..])]
  {
    b.Out();
  }

  /** `busyboard_in` as the programs built on the library see it: the
      ports sampled, which `in_state` now holds, then the outputs written
      out again. */
  method Poll(b: Board) returns (p: seq<bv8>)
    requires b.Valid()
    modifies b, b.inState
    ensures b.Valid() && b.trimask == old(b.trimask) && b.outState[..] == old(b.outState[..])
    ensures b.nReads == old(b.nReads) + 48
    ensures p == b.inState[..] && |p| == NPorts
    ensures b.log == old(b.log) + [Sampled(p), Wrote(b.trimask, b.outState[..])]
  {
    b.In();
    p := b.inState[..];
  }
}
