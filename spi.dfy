/** host_software/spi_test.c: bit-banged SPI over port A of the busyboard.
    Port A bit 0 is the clock, bit 1 MOSI and bits 2 to 7 the active-low
    chip selects of up to six devices; port B bit 0 is MISO.

    A line change is only seen by the devices at the next `busyboard_out`,
    so the model speaks of the snapshots on the board's log. `Device` is a
    device on the bus that watches those snapshots; the frames it receives
    are the partner of the SRAM command functions. */
module Spi {
  import opened Busyboard

  // ---------------------------------------------------------------------
  // Port A

  /** `out_state[0] |= ~3`: every chip select released (high). */
  function ReleaseAll(a: bv8): bv8
  {
    a | 0xfc
  }

  /** `csbit = 1 << (id + 2)`, narrowed to `unsigned char`: zero once the
      bit falls off the byte. The shift itself is undefined in C from
      `id + 2 == 31` on. */
  function CsMask(id: nat): bv8
    requires id + 2 < 31
  {
    if id + 2 < 8 then (1 as bv8) << (id + 2) else 0
  }

  /** `spi_set_cs`'s update: all selects released, then `id`'s pulled
      low. */
  function Select(a: bv8, id: nat): bv8
    requires id + 2 < 31
  {
    ReleaseAll(a) & !CsMask(id)
  }

  /** MOSI set to `v` (`|= 2` or `&= ~2`). */
  function Mosi(a: bv8, v: bool): bv8
  {
    if v then a | 2 else a & 0xfd
  }

  /** Clock raised (`|= 1`). */
  function ClockHigh(a: bv8): bv8
  {
    a | 1
  }

  /** Clock lowered (`&= ~1`). */
  function ClockLow(a: bv8): bv8
  {
    a & 0xfe
  }

  /** The clock line, bit 0. */
  predicate Clock(a: bv8)
  {
    a & 1 == 1
  }

  /** The MOSI line, bit 1. */
  predicate MosiLine(a: bv8)
  {
    a & 2 == 2
  }

  /** The six chip-select lines, bits 2 to 7. */
  function Cs(a: bv8): bv8
  {
    a & 0xfc
  }

  /** Device `j`'s chip-select line, bit `j + 2`. */
  function SelBit(j: nat): bv8
    requires j < 6
  {
    if j == 0 then 0x04 else if j == 1 then 0x08 else if j == 2 then 0x10
    else if j == 3 then 0x20 else if j == 4 then 0x40 else 0x80
  }

  /** Device `j`'s chip select is pulled low. */
  predicate Selected(a: bv8, j: nat)
    requires j < 6
  {
    Cs(a) & SelBit(j) == 0
  }

  /** The select line of device `j` is bit `j + 2`, the bit `spi_set_cs`
      computes. */
  lemma SelBitIsBit(j: nat)
    requires j < 6
    ensures SelBit(j) == CsMask(j)
    ensures forall a: bv8 {:trigger Selected(a, j)} :: Selected(a, j) == !Bit(a, j + 2)
  {
    if j == 0 {
    } else if j == 1 {
    } else if j == 2 {
    } else if j == 3 {
    } else if j == 4 {
    } else {
    }
  }

  /** With every select released no device is selected. */
  lemma NoneSelected(a: bv8, j: nat)
    requires j < 6 && Cs(a) == 0xfc
    ensures !Selected(a, j)
  {
  }

  /** `spi_clear_cs` releases every chip select and keeps clock and MOSI. */
  lemma ReleaseAllLines(a: bv8)
    ensures Cs(ReleaseAll(a)) == 0xfc
    ensures Clock(ReleaseAll(a)) == Clock(a) && MosiLine(ReleaseAll(a)) == MosiLine(a)
  {
  }

  /** `spi_set_cs(id)` keeps clock and MOSI ... */
  lemma SelectLines(a: bv8, id: nat)
    requires id + 2 < 31
    ensures Clock(Select(a, id)) == Clock(a) && MosiLine(Select(a, id)) == MosiLine(a)
  {
  }

  /** ... and selects device `id` alone, or none when `id` is past the
      last select line. */
  lemma SelectedLine(a: bv8, id: nat, j: nat)
    requires id + 2 < 31 && j < 6
    ensures Selected(Select(a, id), j) == (j == id)
  {
    if id < 6 {
      SelBitIsBit(id);
      assert Cs(Select(a, id)) == 0xfc & !SelBit(id);
    } else {
      assert Select(a, id) == ReleaseAll(a);
    }
  }

  /** Setting MOSI changes no other line. */
  lemma MosiLines(a: bv8, v: bool)
    ensures MosiLine(Mosi(a, v)) == v
    ensures Clock(Mosi(a, v)) == Clock(a) && Cs(Mosi(a, v)) == Cs(a)
  {
  }

  /** Raising the clock changes no other line. */
  lemma ClockHighLines(a: bv8)
    ensures Clock(ClockHigh(a))
    ensures MosiLine(ClockHigh(a)) == MosiLine(a) && Cs(ClockHigh(a)) == Cs(a)
  {
  }

  /** Lowering the clock changes no other line. */
  lemma ClockLowLines(a: bv8)
    ensures !Clock(ClockLow(a))
    ensures MosiLine(ClockLow(a)) == MosiLine(a) && Cs(ClockLow(a)) == Cs(a)
  {
  }

  /** The outputs at rest: port A's clock low and no device selected.
      `spi_init` leaves the port so and every SRAM command returns to it. */
  predicate Idle(out: seq<bv8>)
  {
    |out| == NPorts && Cs(out[0]) == 0xfc && !Clock(out[0])
  }

  // ---------------------------------------------------------------------
  // What the host writes out, as functions of the state before

  /** `spi_init`: the mask and port A as the bus starts. */
  const InitMask: bv32 := 1
  const InitA: bv8 := 0xfc

  lemma InitIdle(out: seq<bv8>)
    requires |out| == NPorts
    ensures Idle(out[0 := InitA])
  {
  }

  /** `spi_clear_cs`. */
  function ClearCsF(t: bv32, out: seq<bv8>): (r: After)
    requires |out| == NPorts
    ensures |r.out| == NPorts
  {
    var o := out[0 := ReleaseAll(out[0])];
    After([Wrote(t, o)], o)
  }

  /** `spi_set_cs`. */
  function SetCsF(t: bv32, out: seq<bv8>, id: nat): (r: After)
    requires |out| == NPorts && id + 2 < 31
    ensures |r.out| == NPorts
  {
    var o := out[0 := Select(out[0], id)];
    After([Wrote(t, o)], o)
  }

  /** The bits of `buf`, each byte most significant bit first. */
  function Bytes(buf: seq<bv8>): (r: seq<bool>)
    ensures |r| == 8 * |buf|
  {
    if buf == [] then [] else BitsOf(buf[0]) + Bytes(buf[1..])
  }

  /** Port A after MOSI is set to `v`, the clock raised, and lowered. */
  function BitEnd(a: bv8, v: bool): bv8
  {
    ClockLow(ClockHigh(Mosi(a, v)))
  }

  /** Port A after a clock pulse: raised, then lowered. */
  function RoundEnd(a: bv8): bv8
  {
    ClockLow(ClockHigh(a))
  }

  /** One pass of `spi_send_byte`'s loop: a snapshot with MOSI set to the
      bit, one with the clock raised, and the clock lowered again without a
      snapshot. */
  function SendBitF(t: bv32, out: seq<bv8>, v: bool): (r: After)
    requires |out| == NPorts
    ensures |r.out| == NPorts
  {
    After([Wrote(t, out[0 := Mosi(out[0], v)]), Wrote(t, out[0 := ClockHigh(Mosi(out[0], v))])],
          out[0 := BitEnd(out[0], v)])
  }

  /** The loop of `spi_send_byte`, generalised to any bit string. */
  function SendBits(t: bv32, out: seq<bv8>, bits: seq<bool>): (r: After)
    requires |out| == NPorts
    ensures |r.out| == NPorts
    decreases |bits|
  {
    if bits == [] then After([], out)
    else
      var first := SendBitF(t, out, bits[0]);
      var rest := SendBits(t, first.out, bits[1..]);
      After(first.ops + rest.ops, rest.out)
  }

  /** The loop of `spi_send`: the bytes of `buf` one after the other. */
  function SendBytes(t: bv32, out: seq<bv8>, buf: seq<bv8>): (r: After)
    requires |out| == NPorts
    ensures |r.out| == NPorts
    decreases |buf|
  {
    if buf == [] then After([], out)
    else
      var first := SendBits(t, out, BitsOf(buf[0]));
      var rest := SendBytes(t, first.out, buf[1..]);
      After(first.ops + rest.ops, rest.out)
  }

  /** `spi_send`: the chip select, then the bytes. */
  function SpiSendF(t: bv32, out: seq<bv8>, id: nat, buf: seq<bv8>): (r: After)
    requires |out| == NPorts && id + 2 < 31
    ensures |r.out| == NPorts
  {
    var s := SetCsF(t, out, id);
    var r := SendBytes(t, s.out, buf);
    After(s.ops + r.ops, r.out)
  }

  /** MISO, port B bit 0 (`in_state[1] & 1`), in a sample of the ports. */
  predicate Miso(p: seq<bv8>)
  {
    |p| == NPorts && p[1] & 1 == 1
  }

  /** One round of `spi_rec_byte` in which `busyboard_in` samples `p`: a
      snapshot with the clock raised, one with it lowered, the sample, and
      the outputs written out again. */
  function RoundF(t: bv32, out: seq<bv8>, p: seq<bv8>): (r: After)
    requires |out| == NPorts
    ensures |r.out| == NPorts
  {
    var l := out[0 := RoundEnd(out[0])];
    After([Wrote(t, out[0 := ClockHigh(out[0])]), Wrote(t, l), Sampled(p), Wrote(t, l)], l)
  }

  /** One round per sample of `ps`, the first sample first: the rounds of
      `spi_rec_byte`, and of `spi_rec` one byte after the other. */
  function RecRounds(t: bv32, out: seq<bv8>, ps: seq<seq<bv8>>): (r: After)
    requires |out| == NPorts
    ensures |r.out| == NPorts
    decreases |ps|
  {
    if ps == [] then After([], out)
    else
      var pre := RecRounds(t, out, ps[..|ps| - 1]);
      var last := RoundF(t, pre.out, ps[|ps| - 1]);
      After(pre.ops + last.ops, last.out)
  }

  /** `spi_rec`: the chip select, then a round per sample. */
  function SpiRecF(t: bv32, out: seq<bv8>, id: nat, ps: seq<seq<bv8>>): (r: After)
    requires |out| == NPorts && id + 2 < 31
    ensures |r.out| == NPorts
  {
    var s := SetCsF(t, out, id);
    var r := RecRounds(t, s.out, ps);
    After(s.ops + r.ops, r.out)
  }

  // ---------------------------------------------------------------------
  // The bytes received

  /** The MISO bit of every sample. */
  function Misos(ps: seq<seq<bv8>>): (r: seq<bool>)
    ensures |r| == |ps|
  {
    seq(|ps|, k requires 0 <= k < |ps| => Miso(ps[k]))
  }

  /** `*x <<= 1` followed by `*x |= 1` when the bit is set. */
  function Shifted(x: bv8, bit: bool): bv8
  {
    (x << 1) | (if bit then 1 else 0)
  }

  /** The bits packed as `spi_rec_byte` does, by shifting each in at the
      bottom. */
  function PackMsb(bits: seq<bool>): bv8
  {
    if bits == [] then 0 else Shifted(PackMsb(bits[..|bits| - 1]), bits[|bits| - 1])
  }

  /** The bytes `spi_rec` stores when the samples are `ps`: byte `k` from
      the `k`-th group of eight. */
  function Received(ps: seq<seq<bv8>>, len: nat): (r: seq<bv8>)
    requires |ps| == 8 * len
    ensures |r| == len
  {
    seq(len, k requires 0 <= k < len => PackMsb(Misos(ps[8 * k..8 * k + 8])))
  }

  lemma ShiftedBits(x: bv8, bit: bool)
    ensures Bit(Shifted(x, bit), 0) == bit
    ensures forall k :: 0 <= k < 7 ==> Bit(Shifted(x, bit), k + 1) == Bit(x, k)
  {
  }

  /** Of at most eight bits packed, bit `|bits| - 1 - j` is `bits[j]` and
      the bits above them are clear. */
  lemma {:induction false} PackMsbAt(bits: seq<bool>)
    requires |bits| <= 8
    ensures forall j :: 0 <= j < |bits| ==> Bit(PackMsb(bits), |bits| - 1 - j) == bits[j]
    ensures forall j :: |bits| <= j < 8 ==> !Bit(PackMsb(bits), j)
  {
    if bits != [] {
      var m := |bits| - 1;
      var p := bits[..m];
      PackMsbAt(p);
      ShiftedBits(PackMsb(p), bits[m]);
      forall j | 0 <= j < |bits|
        ensures Bit(PackMsb(bits), |bits| - 1 - j) == bits[j]
      {
        if j < m {
          assert Bit(PackMsb(bits), (m - 1 - j) + 1) == Bit(PackMsb(p), m - 1 - j);
        }
      }
      forall j | |bits| <= j < 8
        ensures !Bit(PackMsb(bits), j)
      {
        assert Bit(PackMsb(bits), (j - 1) + 1) == Bit(PackMsb(p), j - 1);
      }
    }
  }

  /** Eight bits packed are the bits of the byte, in order. */
  lemma PackMsbBits(bits: seq<bool>)
    requires |bits| == 8
    ensures BitsOf(PackMsb(bits)) == bits
  {
    PackMsbAt(bits);
  }

  /** The byte `spi_rec_byte` returns holds the MISO bits of its eight
      samples, the first in the most significant bit. */
  lemma RecByteBits(ps: seq<seq<bv8>>)
    requires |ps| == 8
    ensures BitsOf(PackMsb(Misos(ps))) == Misos(ps)
    ensures forall k :: 0 <= k < 8 ==> Bit(PackMsb(Misos(ps)), 7 - k) == Miso(ps[k])
  {
    PackMsbAt(Misos(ps));
    assert BitsOf(PackMsb(Misos(ps))) == Misos(ps);
    forall k | 0 <= k < 8
      ensures Bit(PackMsb(Misos(ps)), 7 - k) == Miso(ps[k])
    {
      assert Misos(ps)[k] == Miso(ps[k]);
    }
  }

  // ---------------------------------------------------------------------
  // The SRAM commands

  /** `(addr >> 16) & 0xff`, `(addr >> 8) & 0xff`, `addr & 0xff`: the
      address bytes, high first, of the two's complement `int` address. */
  function AddrBytes(addr: bv32): (r: seq<bv8>)
    ensures |r| == 3
  {
    [((addr >> 16) & 0xff) as bv8, ((addr >> 8) & 0xff) as bv8, (addr & 0xff) as bv8]
  }

  /** The address bytes are the low 24 bits of the address. */
  lemma AddrBytesValue(addr: bv32)
    ensures var a := AddrBytes(addr);
      ((a[0] as bv32) << 16) | ((a[1] as bv32) << 8) | (a[2] as bv32) == addr & 0xff_ffff
  {
  }

  /** The bytes `spi_sram_write` means to send: the write command 0x02,
      the address and the data. */
  function SramWriteFrame(addr: bv32, data: bv8): (r: seq<bv8>)
    ensures |r| == 5
  {
    [2] + AddrBytes(addr) + [data]
  }

  /** `spi_sram_read`'s command: 0x03 and the address. */
  function SramReadFrame(addr: bv32): (r: seq<bv8>)
    ensures |r| == 4
  {
    [3] + AddrBytes(addr)
  }

  const RdmrFrame: seq<bv8> := [5]
  const ResetFrame: seq<bv8> := [0xff]

  /** `spi_sram_wrmr`'s command: 0x01 and the new mode register. */
  function WrmrFrame(mr: bv8): seq<bv8>
  {
    [1, mr]
  }

  /** The stores `spi_sram_write` makes into its local `char buf[4]`, as
      (index, value) pairs, in program order. */
  const SramWriteBufLen: nat := 4

  function SramWriteStores(addr: bv32, data: bv8): seq<(nat, bv8)>
  {
    var a := AddrBytes(addr);
    [(0, 2), (1, a[0]), (2, a[1]), (3, a[2]), (4, data)]
  }

  /** As written, the last store is past the end of the buffer, and the
      send reads five bytes from it. */
  lemma SramWriteOverrun(addr: bv32, data: bv8)
    ensures SramWriteStores(addr, data)[4].0 >= SramWriteBufLen
    ensures |SramWriteStores(addr, data)| > SramWriteBufLen
  {
  }

  /** The five-byte frame is what the stores mean: store `(k, v)` puts `v`
      at position `k` of it, and it is as long as the send. */
  lemma SramWriteFrameStores(addr: bv32, data: bv8)
    ensures |SramWriteFrame(addr, data)| == |SramWriteStores(addr, data)|
    ensures forall k :: 0 <= k < |SramWriteStores(addr, data)| ==>
      SramWriteStores(addr, data)[k].0 == k && SramWriteFrame(addr, data)[k] == SramWriteStores(addr, data)[k].1
  {
  }

  /** Every SRAM command has this shape: optionally the selects released
      first, then the command bytes sent to device `id`, one receive round
      per sample of `ps`, and the selects released. */
  function CommandF(t: bv32, out: seq<bv8>, id: nat, lead: bool, buf: seq<bv8>, ps: seq<seq<bv8>>): (r: After)
    requires |out| == NPorts && id + 2 < 31
    ensures |r.out| == NPorts
  {
    var c := if lead then ClearCsF(t, out) else After([], out);
    var s := SpiSendF(t, c.out, id, buf);
    var r := RecRounds(t, s.out, ps);
    var e := ClearCsF(t, r.out);
    After(c.ops + s.ops + r.ops + e.ops, e.out)
  }

  /** `spi_sram_write`, with the five-byte frame. */
  function SramWriteF(t: bv32, out: seq<bv8>, id: nat, addr: bv32, data: bv8): (r: After)
    requires |out| == NPorts && id + 2 < 31
  {
    CommandF(t, out, id, true, SramWriteFrame(addr, data), [])
  }

  /** `spi_sram_read`, receiving eight samples `ps`. */
  function SramReadF(t: bv32, out: seq<bv8>, id: nat, addr: bv32, ps: seq<seq<bv8>>): (r: After)
    requires |out| == NPorts && id + 2 < 31
  {
    CommandF(t, out, id, true, SramReadFrame(addr), ps)
  }

  /** `spi_sram_rdmr`. */
  function RdmrF(t: bv32, out: seq<bv8>, id: nat, ps: seq<seq<bv8>>): (r: After)
    requires |out| == NPorts && id + 2 < 31
  {
    CommandF(t, out, id, false, RdmrFrame, ps)
  }

  /** `spi_sram_wrmr`. */
  function WrmrF(t: bv32, out: seq<bv8>, id: nat, mr: bv8): (r: After)
    requires |out| == NPorts && id + 2 < 31
  {
    CommandF(t, out, id, false, WrmrFrame(mr), [])
  }

  /** `spi_sram_reset`. */
  function ResetF(t: bv32, out: seq<bv8>, id: nat): (r: After)
    requires |out| == NPorts && id + 2 < 31
  {
    CommandF(t, out, id, false, ResetFrame, [])
  }

  // ---------------------------------------------------------------------
  // A device on the bus

  /** An SPI device with chip select `j`, as it sees the snapshots written
      out: whether it is selected, the clock level it saw last, the MOSI
      bits it sampled on rising clock edges since it was selected, and the
      frames (the bits of one selection each) it has received. */
  datatype Device = Device(selected: bool, clk: bool, shifted: seq<bool>, frames: seq<seq<bool>>)

  /** A device at rest: not selected, with the clock seen low. */
  predicate Quiet(d: Device)
  {
    !d.selected && !d.clk && d.shifted == []
  }

  /** What device `j` makes of one entry of the log: a snapshot selects or
      releases it, and a rising clock edge while it stays selected samples
      MOSI; a release closes the frame. Samples of the inputs are not seen
      by the device. */
  function Watch(j: nat, d: Device, op: Op): Device
    requires j < 6
  {
    match op
    case Wrote(_, out) =>
      if |out| == 0 then d
      else
        var a := out[0];
        var sel := Selected(a, j);
        var sh := if !(d.selected && sel) then []
                  else if Clock(a) && !d.clk then d.shifted + [MosiLine(a)]
                  else d.shifted;
        Device(sel, Clock(a), sh, if d.selected && !sel then d.frames + [d.shifted] else d.frames)
    case _ => d
  }

  function WatchAll(j: nat, d: Device, ops: seq<Op>): Device
    requires j < 6
    decreases |ops|
  {
    if ops == [] then d else WatchAll(j, Watch(j, d, ops[0]), ops[1..])
  }

  lemma {:induction false} WatchAppend(j: nat, d: Device, a: seq<Op>, b: seq<Op>)
    requires j < 6
    ensures WatchAll(j, d, a + b) == WatchAll(j, WatchAll(j, d, a), b)
    decreases |a|
  {
    if a == [] {
      assert a + b == b;
    } else {
      assert (a + b)[0] == a[0] && (a + b)[1..] == a[1..] + b;
      WatchAppend(j, Watch(j, d, a[0]), a[1..], b);
    }
  }

  lemma WatchPair(j: nat, d: Device, x: Op, y: Op)
    requires j < 6
    ensures WatchAll(j, d, [x, y]) == Watch(j, Watch(j, d, x), y)
  {
    assert [x, y][0] == x && [x, y][1..] == [y];
    WatchOne(j, Watch(j, d, x), y);
  }

  lemma WatchOne(j: nat, d: Device, x: Op)
    requires j < 6
    ensures WatchAll(j, d, [x]) == Watch(j, d, x)
  {
    assert [x][1..] == [];
  }

  /** The lines of port A through one bit: the selects never change, the
      clock rises only at the second snapshot, and MOSI holds the bit. Each
      line is its own lemma below: the solver handles one bit-vector fact
      at a time far more cheaply than several together. */
  lemma BitLines(a: bv8, v: bool)
    ensures Cs(Mosi(a, v)) == Cs(a)
    ensures Clock(Mosi(a, v)) == Clock(a)
    ensures Cs(ClockHigh(Mosi(a, v))) == Cs(a)
    ensures Clock(ClockHigh(Mosi(a, v)))
    ensures MosiLine(ClockHigh(Mosi(a, v))) == v
    ensures Cs(BitEnd(a, v)) == Cs(a)
    ensures !Clock(BitEnd(a, v))
    ensures MosiLine(BitEnd(a, v)) == v
  {
    BitMosiCs(a, v);
    BitMosiClock(a, v);
    BitHighCs(a, v);
    BitHighClock(a, v);
    BitHighMosi(a, v);
    BitEndCs(a, v);
    BitEndClock(a, v);
    BitEndMosi(a, v);
  }

  lemma BitMosiCs(a: bv8, v: bool)
    ensures Cs(Mosi(a, v)) == Cs(a)
  {
  }

  lemma BitMosiClock(a: bv8, v: bool)
    ensures Clock(Mosi(a, v)) == Clock(a)
  {
  }

  lemma BitHighCs(a: bv8, v: bool)
    ensures Cs(ClockHigh(Mosi(a, v))) == Cs(a)
  {
  }

  lemma BitHighClock(a: bv8, v: bool)
    ensures Clock(ClockHigh(Mosi(a, v)))
  {
  }

  lemma BitHighMosi(a: bv8, v: bool)
    ensures MosiLine(ClockHigh(Mosi(a, v))) == v
  {
  }

  lemma BitEndCs(a: bv8, v: bool)
    ensures Cs(BitEnd(a, v)) == Cs(a)
  {
  }

  lemma BitEndClock(a: bv8, v: bool)
    ensures !Clock(BitEnd(a, v))
  {
  }

  lemma BitEndMosi(a: bv8, v: bool)
    ensures MosiLine(BitEnd(a, v)) == v
  {
  }

  /** `spi_send_byte` leaves the other ports and the selects alone ... */
  lemma {:induction false} SendKeeps(t: bv32, out: seq<bv8>, bits: seq<bool>)
    requires |out| == NPorts
    ensures SendBits(t, out, bits).out[1..] == out[1..]
    ensures Cs(SendBits(t, out, bits).out[0]) == Cs(out[0])
    decreases |bits|
  {
    if bits != [] {
      var l := out[0 := BitEnd(out[0], bits[0])];
      BitEndCs(out[0], bits[0]);
      assert l[1..] == out[1..];
      SendKeeps(t, l, bits[1..]);
    }
  }

  /** ... and ends with the clock low and MOSI at the last bit sent. */
  lemma {:induction false} SendEnds(t: bv32, out: seq<bv8>, bits: seq<bool>)
    requires |out| == NPorts && bits != []
    ensures !Clock(SendBits(t, out, bits).out[0])
    ensures MosiLine(SendBits(t, out, bits).out[0]) == bits[|bits| - 1]
    decreases |bits|
  {
    var v, rest := bits[0], bits[1..];
    var o := out[0 := BitEnd(out[0], v)];
    SendBitsStep(t, out, bits);
    if rest == [] {
      SendOneEnds(t, out, v);
    } else {
      SendEnds(t, o, rest);
      assert rest[|rest| - 1] == bits[|bits| - 1];
    }
  }

  /** The bits after the first are sent from where the first left port A. */
  lemma SendBitsStep(t: bv32, out: seq<bv8>, bits: seq<bool>)
    requires |out| == NPorts && bits != []
    ensures SendBits(t, out, bits).out == SendBits(t, out[0 := BitEnd(out[0], bits[0])], bits[1..]).out
  {
  }

  lemma SendOneEnds(t: bv32, out: seq<bv8>, v: bool)
    requires |out| == NPorts
    ensures var o := SendBits(t, out[0 := BitEnd(out[0], v)], []).out;
      !Clock(o[0]) && MosiLine(o[0]) == v
  {
    BitEndClock(out[0], v);
    BitEndMosi(out[0], v);
  }

  /** Both together, and nothing changes when nothing is sent. */
  lemma SendOut(t: bv32, out: seq<bv8>, bits: seq<bool>)
    requires |out| == NPorts
    ensures var o := SendBits(t, out, bits).out;
      o[1..] == out[1..] && Cs(o[0]) == Cs(out[0])
      && (bits == [] ==> o == out)
      && (bits != [] ==> !Clock(o[0]) && MosiLine(o[0]) == bits[|bits| - 1])
  {
    SendKeeps(t, out, bits);
    if bits != [] {
      SendEnds(t, out, bits);
    }
  }

  /** A selected device samples the bit sent. */
  lemma BitWatched(j: nat, d: Device, t: bv32, out: seq<bv8>, v: bool)
    requires j < 6 && |out| == NPorts && d.selected && Selected(out[0], j) && !Clock(out[0])
    ensures WatchAll(j, d, SendBitF(t, out, v).ops) == Device(true, true, d.shifted + [v], d.frames)
  {
    var m := Mosi(out[0], v);
    BitLines(out[0], v);
    WatchPair(j, d, Wrote(t, out[0 := m]), Wrote(t, out[0 := ClockHigh(m)]));
    assert Watch(j, d, Wrote(t, out[0 := m])) == Device(true, false, d.shifted, d.frames);
  }

  /** A device not selected samples nothing while a bit is sent. */
  lemma BitUnselected(j: nat, d: Device, t: bv32, out: seq<bv8>, v: bool)
    requires j < 6 && |out| == NPorts && !d.selected && d.shifted == [] && !Selected(out[0], j)
    ensures WatchAll(j, d, SendBitF(t, out, v).ops) == d.(clk := true)
  {
    var m := Mosi(out[0], v);
    BitLines(out[0], v);
    WatchPair(j, d, Wrote(t, out[0 := m]), Wrote(t, out[0 := ClockHigh(m)]));
  }

  /** A selected device samples every bit sent, in order. */
  lemma {:induction false} SendWatched(j: nat, d: Device, t: bv32, out: seq<bv8>, bits: seq<bool>)
    requires j < 6 && |out| == NPorts && d.selected && Selected(out[0], j) && !Clock(out[0])
    ensures WatchAll(j, d, SendBits(t, out, bits).ops)
      == Device(true, if bits == [] then d.clk else true, d.shifted + bits, d.frames)
    decreases |bits|
  {
    if bits == [] {
      assert d.shifted + bits == d.shifted;
    } else {
      var v, rest := bits[0], bits[1..];
      var first := SendBitF(t, out, v);
      FirstBitWatched(j, d, t, out, bits);
      SendWatched(j, Device(true, true, d.shifted + [v], d.frames), t, first.out, rest);
      BitsCons(d.shifted, bits);
    }
  }

  lemma BitsCons(s: seq<bool>, bits: seq<bool>)
    requires bits != []
    ensures s + [bits[0]] + bits[1..] == s + bits
  {
    assert bits == [bits[0]] + bits[1..];
  }

  /** The first bit sent: the device samples it, and stays selected with
      the clock low for the rest. */
  lemma FirstBitWatched(j: nat, d: Device, t: bv32, out: seq<bv8>, bits: seq<bool>)
    requires j < 6 && |out| == NPorts && d.selected && Selected(out[0], j) && !Clock(out[0]) && bits != []
    ensures var first := SendBitF(t, out, bits[0]);
      && WatchAll(j, d, SendBits(t, out, bits).ops)
         == WatchAll(j, Device(true, true, d.shifted + [bits[0]], d.frames), SendBits(t, first.out, bits[1..]).ops)
      && Selected(first.out[0], j) && !Clock(first.out[0])
  {
    var v, rest := bits[0], bits[1..];
    var first := SendBitF(t, out, v);
    BitEndCs(out[0], v);
    BitEndClock(out[0], v);
    WatchAppend(j, d, first.ops, SendBits(t, first.out, rest).ops);
    BitWatched(j, d, t, out, v);
  }

  /** A device not selected stays so, and samples nothing. */
  lemma {:induction false} SendUnselected(j: nat, d: Device, t: bv32, out: seq<bv8>, bits: seq<bool>)
    requires j < 6 && |out| == NPorts && !d.selected && d.shifted == [] && !Selected(out[0], j)
    ensures WatchAll(j, d, SendBits(t, out, bits).ops) == d.(clk := if bits == [] then d.clk else true)
    decreases |bits|
  {
    if bits != [] {
      var v, rest := bits[0], bits[1..];
      var first := SendBitF(t, out, v);
      BitEndCs(out[0], v);
      WatchAppend(j, d, first.ops, SendBits(t, first.out, rest).ops);
      BitUnselected(j, d, t, out, v);
      SendUnselected(j, d.(clk := true), t, first.out, rest);
    }
  }

  lemma SeqAssoc(a: seq<Op>, b: seq<Op>, c: seq<Op>)
    ensures (a + b) + c == a + (b + c)
  {
  }

  /** Sending two bit strings one after the other is sending their
      concatenation. */
  lemma {:induction false} SendBitsAppend(t: bv32, out: seq<bv8>, a: seq<bool>, b: seq<bool>)
    requires |out| == NPorts
    ensures var x := SendBits(t, out, a);
      var y := SendBits(t, x.out, b);
      SendBits(t, out, a + b) == After(x.ops + y.ops, y.out)
    decreases |a|
  {
    if a == [] {
      assert a + b == b;
    } else {
      assert (a + b)[0] == a[0] && (a + b)[1..] == a[1..] + b;
      var f := SendBitF(t, out, a[0]);
      SendBitsAppend(t, f.out, a[1..], b);
      var x := SendBits(t, f.out, a[1..]);
      SeqAssoc(f.ops, x.ops, SendBits(t, x.out, b).ops);
    }
  }

  /** `spi_send`'s loop sends the bits of its bytes. */
  lemma {:induction false} SendBytesBits(t: bv32, out: seq<bv8>, buf: seq<bv8>)
    requires |out| == NPorts
    ensures SendBytes(t, out, buf) == SendBits(t, out, Bytes(buf))
    decreases |buf|
  {
    if buf != [] {
      var first := SendBits(t, out, BitsOf(buf[0]));
      SendBytesBits(t, first.out, buf[1..]);
      SendBitsAppend(t, out, BitsOf(buf[0]), Bytes(buf[1..]));
    }
  }

  /** The last bit of a byte string is bit 0 of its last byte. */
  lemma {:induction false} BytesLast(buf: seq<bv8>)
    requires buf != []
    ensures Bytes(buf)[|Bytes(buf)| - 1] == Bit(buf[|buf| - 1], 0)
    decreases |buf|
  {
    if |buf| == 1 {
      assert Bytes(buf) == BitsOf(buf[0]) + [];
    } else {
      BytesLast(buf[1..]);
      assert buf[1..][|buf[1..]| - 1] == buf[|buf| - 1];
    }
  }

  /** `spi_send`'s loop leaves the other ports and the selects alone, and
      the clock low with MOSI at the last bit of the last byte. */
  lemma SendBytesOut(t: bv32, out: seq<bv8>, buf: seq<bv8>)
    requires |out| == NPorts
    ensures var o := SendBytes(t, out, buf).out;
      o[1..] == out[1..] && Cs(o[0]) == Cs(out[0])
      && (buf == [] ==> o == out)
      && (buf != [] ==> !Clock(o[0]) && MosiLine(o[0]) == Bit(buf[|buf| - 1], 0))
  {
    SendBytesBits(t, out, buf);
    SendOut(t, out, Bytes(buf));
    if buf != [] {
      BytesLast(buf);
    }
  }

  /** A selected device samples the bits of every byte sent. */
  lemma SendBytesWatched(j: nat, d: Device, t: bv32, out: seq<bv8>, buf: seq<bv8>)
    requires j < 6 && |out| == NPorts && d.selected && Selected(out[0], j) && !Clock(out[0])
    ensures WatchAll(j, d, SendBytes(t, out, buf).ops)
      == Device(true, if buf == [] then d.clk else true, d.shifted + Bytes(buf), d.frames)
  {
    SendBytesBits(t, out, buf);
    SendWatched(j, d, t, out, Bytes(buf));
  }

  /** A device not selected samples nothing while bytes are sent. */
  lemma SendBytesUnselected(j: nat, d: Device, t: bv32, out: seq<bv8>, buf: seq<bv8>)
    requires j < 6 && |out| == NPorts && !d.selected && d.shifted == [] && !Selected(out[0], j)
    ensures WatchAll(j, d, SendBytes(t, out, buf).ops) == d.(clk := if buf == [] then d.clk else true)
  {
    SendBytesBits(t, out, buf);
    SendUnselected(j, d, t, out, Bytes(buf));
  }

  // Receiving, as the device sees it

  /** The lines of port A through a clock pulse. */
  lemma RoundLines(a: bv8)
    ensures Cs(ClockHigh(a)) == Cs(a) && Clock(ClockHigh(a)) && MosiLine(ClockHigh(a)) == MosiLine(a)
    ensures Cs(RoundEnd(a)) == Cs(a) && !Clock(RoundEnd(a)) && MosiLine(RoundEnd(a)) == MosiLine(a)
    ensures RoundEnd(RoundEnd(a)) == RoundEnd(a)
  {
    RoundHighCs(a);
    RoundHighClock(a);
    RoundHighMosi(a);
    RoundEndCs(a);
    RoundEndClock(a);
    RoundEndMosi(a);
    RoundEndTwice(a);
  }

  lemma RoundHighCs(a: bv8) ensures Cs(ClockHigh(a)) == Cs(a) { }
  lemma RoundHighClock(a: bv8) ensures Clock(ClockHigh(a)) { }
  lemma RoundHighMosi(a: bv8) ensures MosiLine(ClockHigh(a)) == MosiLine(a) { }
  lemma RoundEndCs(a: bv8) ensures Cs(RoundEnd(a)) == Cs(a) { }
  lemma RoundEndClock(a: bv8) ensures !Clock(RoundEnd(a)) { }
  lemma RoundEndMosi(a: bv8) ensures MosiLine(RoundEnd(a)) == MosiLine(a) { }
  lemma RoundEndTwice(a: bv8) ensures RoundEnd(RoundEnd(a)) == RoundEnd(a) { }

  /** However many bytes are received, port A ends as after one clock
      pulse: the clock low, MOSI and the selects as they were. */
  lemma {:induction false} RecRoundsOut(t: bv32, out: seq<bv8>, ps: seq<seq<bv8>>)
    requires |out| == NPorts
    ensures RecRounds(t, out, ps).out == if ps == [] then out else out[0 := RoundEnd(out[0])]
    decreases |ps|
  {
    if |ps| > 1 {
      var pre := ps[..|ps| - 1];
      RecRoundsOut(t, out, pre);
      RoundEndTwice(out[0]);
      assert out[0 := RoundEnd(out[0])][0 := RoundEnd(RoundEnd(out[0]))] == out[0 := RoundEnd(out[0])];
    } else if |ps| == 1 {
      assert ps[..0] == [];
    }
  }

  /** `n` copies of `v`. */
  function Repeat(v: bool, n: nat): (r: seq<bool>)
    ensures |r| == n
  {
    seq(n, _ => v)
  }

  /** The rising edges a device sees in `n` clock pulses when it saw the
      clock at `high` before the first: the first pulse brings none when
      the clock was already high. */
  function Edges(high: bool, n: nat): nat
  {
    if n == 0 then 0 else if high then n - 1 else n
  }

  lemma WatchQuad(j: nat, d: Device, w: Op, x: Op, y: Op, z: Op)
    requires j < 6
    ensures WatchAll(j, d, [w, x, y, z]) == Watch(j, Watch(j, Watch(j, Watch(j, d, w), x), y), z)
  {
    assert [w, x, y, z] == [w, x] + [y, z];
    WatchAppend(j, d, [w, x], [y, z]);
    WatchPair(j, d, w, x);
    WatchPair(j, Watch(j, Watch(j, d, w), x), y, z);
  }

  /** One more clock pulse adds a rising edge unless it is the first and
      the clock was high before it. */
  lemma EdgesStep(s: seq<bool>, v: bool, high: bool, n: nat)
    ensures s + Repeat(v, Edges(high, n)) + (if n == 0 && high then [] else [v])
      == s + Repeat(v, Edges(high, n + 1))
  {
    if !(n == 0 && high) {
      assert Repeat(v, Edges(high, n)) + [v] == Repeat(v, Edges(high, n + 1));
    }
  }

  /** A selected device samples MOSI on the rising edge of a round, if
      the clock was low before it. */
  lemma RoundWatched(j: nat, d: Device, t: bv32, out: seq<bv8>, p: seq<bv8>)
    requires j < 6 && |out| == NPorts && d.selected && Selected(out[0], j)
    ensures WatchAll(j, d, RoundF(t, out, p).ops)
      == Device(true, false, d.shifted + (if d.clk then [] else [MosiLine(out[0])]), d.frames)
  {
    var h := out[0 := ClockHigh(out[0])];
    var l := out[0 := RoundEnd(out[0])];
    RoundLines(out[0]);
    WatchQuad(j, d, Wrote(t, h), Wrote(t, l), Sampled(p), Wrote(t, l));
    var d1 := Watch(j, d, Wrote(t, h));
    assert d1 == Device(true, true, d.shifted + (if d.clk then [] else [MosiLine(out[0])]), d.frames);
  }

  /** A device not selected samples nothing in a round. */
  lemma RoundUnselected(j: nat, d: Device, t: bv32, out: seq<bv8>, p: seq<bv8>)
    requires j < 6 && |out| == NPorts && !d.selected && d.shifted == [] && !Selected(out[0], j)
    ensures WatchAll(j, d, RoundF(t, out, p).ops) == d.(clk := false)
  {
    var h := out[0 := ClockHigh(out[0])];
    var l := out[0 := RoundEnd(out[0])];
    RoundLines(out[0]);
    WatchQuad(j, d, Wrote(t, h), Wrote(t, l), Sampled(p), Wrote(t, l));
  }

  /** The last round of a receive, from a port A whose lines are those of
      `out`. */
  lemma RecWatchedStep(j: nat, d: Device, t: bv32, out: seq<bv8>, ps: seq<seq<bv8>>)
    requires j < 6 && |out| == NPorts && d.selected && Selected(out[0], j) && ps != []
    ensures var pre := RecRounds(t, out, ps[..|ps| - 1]);
      WatchAll(j, d, RecRounds(t, out, ps).ops)
      == WatchAll(j, WatchAll(j, d, pre.ops), RoundF(t, pre.out, ps[|ps| - 1]).ops)
      && Selected(pre.out[0], j) && MosiLine(pre.out[0]) == MosiLine(out[0])
  {
    var pre := RecRounds(t, out, ps[..|ps| - 1]);
    RecRoundsOut(t, out, ps[..|ps| - 1]);
    RoundLines(out[0]);
    WatchAppend(j, d, pre.ops, RoundF(t, pre.out, ps[|ps| - 1]).ops);
  }

  /** A selected device samples, over the rounds of a receive, a copy of
      the MOSI line per rising edge. */
  lemma {:induction false} RecWatched(j: nat, d: Device, t: bv32, out: seq<bv8>, ps: seq<seq<bv8>>)
    requires j < 6 && |out| == NPorts && d.selected && Selected(out[0], j)
    ensures WatchAll(j, d, RecRounds(t, out, ps).ops)
      == Device(true, if ps == [] then d.clk else false,
                d.shifted + Repeat(MosiLine(out[0]), Edges(d.clk, |ps|)), d.frames)
    decreases |ps|
  {
    var v := MosiLine(out[0]);
    if ps == [] {
      assert d.shifted + Repeat(v, 0) == d.shifted;
    } else {
      var n := |ps| - 1;
      var pre := RecRounds(t, out, ps[..n]);
      RecWatchedStep(j, d, t, out, ps);
      RecWatched(j, d, t, out, ps[..n]);
      var dp := WatchAll(j, d, pre.ops);
      RoundWatched(j, dp, t, pre.out, ps[n]);
      EdgesStep(d.shifted, v, d.clk, n);
    }
  }

  /** A device not selected samples nothing over the rounds of a
      receive. */
  lemma {:induction false} RecUnselected(j: nat, d: Device, t: bv32, out: seq<bv8>, ps: seq<seq<bv8>>)
    requires j < 6 && |out| == NPorts && !d.selected && d.shifted == [] && !Selected(out[0], j)
    ensures WatchAll(j, d, RecRounds(t, out, ps).ops) == d.(clk := if ps == [] then d.clk else false)
    decreases |ps|
  {
    if ps != [] {
      var n := |ps| - 1;
      var pre := RecRounds(t, out, ps[..n]);
      RecUnselected(j, d, t, out, ps[..n]);
      RecRoundsOut(t, out, ps[..n]);
      RoundLines(out[0]);
      WatchAppend(j, d, pre.ops, RoundF(t, pre.out, ps[n]).ops);
      RoundUnselected(j, WatchAll(j, d, pre.ops), t, pre.out, ps[n]);
    }
  }

  // ---------------------------------------------------------------------
  // Whole commands, as the device sees them

  lemma ClockSelect(a: bv8, id: nat)
    requires id + 2 < 31
    ensures Clock(Select(a, id)) == Clock(a)
  {
  }

  lemma CsReleaseAll(a: bv8)
    ensures Cs(ReleaseAll(a)) == 0xfc
  {
  }

  lemma ClockReleaseAll(a: bv8)
    ensures Clock(ReleaseAll(a)) == Clock(a)
  {
  }

  /** `spi_clear_cs` releases the device, closing its frame if it was
      selected. */
  lemma ClearCsWatched(j: nat, d: Device, t: bv32, out: seq<bv8>)
    requires j < 6 && |out| == NPorts
    ensures WatchAll(j, d, ClearCsF(t, out).ops)
      == Device(false, Clock(out[0]), [], if d.selected then d.frames + [d.shifted] else d.frames)
    ensures Idle(ClearCsF(t, out).out) == !Clock(out[0])
  {
    CsReleaseAll(out[0]);
    ClockReleaseAll(out[0]);
    NoneSelected(ReleaseAll(out[0]), j);
    WatchOne(j, d, Wrote(t, out[0 := ReleaseAll(out[0])]));
  }

  /** `spi_set_cs(id)` selects device `id` alone, with nothing sampled
      yet. */
  lemma SetCsWatched(j: nat, d: Device, t: bv32, out: seq<bv8>, id: nat)
    requires j < 6 && |out| == NPorts && id + 2 < 31 && !d.selected
    ensures WatchAll(j, d, SetCsF(t, out, id).ops) == Device(j == id, Clock(out[0]), [], d.frames)
    ensures var o := SetCsF(t, out, id).out;
      Selected(o[0], j) == (j == id) && Clock(o[0]) == Clock(out[0])
  {
    SelectedLine(out[0], id, j);
    ClockSelect(out[0], id);
    WatchOne(j, d, Wrote(t, out[0 := Select(out[0], id)]));
  }

  /** The optional leading `spi_clear_cs` of a command leaves an idle bus
      and a quiet device as they were. */
  lemma LeadWatched(j: nat, d: Device, t: bv32, out: seq<bv8>, lead: bool)
    requires j < 6 && Idle(out) && Quiet(d)
    ensures var c := if lead then ClearCsF(t, out) else After([], out);
      Idle(c.out) && WatchAll(j, d, c.ops) == d
  {
    if lead {
      ClearCsWatched(j, d, t, out);
    }
  }

  /** `spi_send` from an idle bus: device `id` is left selected with the
      bits of `buf` sampled, every other device unselected with nothing. */
  lemma SpiSendWatched(j: nat, d: Device, t: bv32, out: seq<bv8>, id: nat, buf: seq<bv8>)
    requires j < 6 && Idle(out) && Quiet(d) && id + 2 < 31 && buf != []
    ensures var s := SpiSendF(t, out, id, buf);
      Selected(s.out[0], j) == (j == id) && !Clock(s.out[0])
      && MosiLine(s.out[0]) == Bit(buf[|buf| - 1], 0)
      && WatchAll(j, d, s.ops) == Device(j == id, true, if j == id then Bytes(buf) else [], d.frames)
  {
    var c := SetCsF(t, out, id);
    SetCsWatched(j, d, t, out, id);
    SendBytesOut(t, c.out, buf);
    WatchAppend(j, d, c.ops, SendBytes(t, c.out, buf).ops);
    var d1 := Device(j == id, false, [], d.frames);
    if j == id {
      SendBytesWatched(j, d1, t, c.out, buf);
      assert [] + Bytes(buf) == Bytes(buf);
    } else {
      SendBytesUnselected(j, d1, t, c.out, buf);
    }
  }

  /** The receive rounds after `spi_send`: the selected device samples
      MOSI once per rising edge, the others nothing, and the clock ends
      low. */
  lemma RecAfterSend(j: nat, sel: bool, sh: seq<bool>, fr: seq<seq<bool>>, t: bv32, o: seq<bv8>, ps: seq<seq<bv8>>)
    requires j < 6 && |o| == NPorts && Selected(o[0], j) == sel && !Clock(o[0]) && (!sel ==> sh == [])
    ensures var r := RecRounds(t, o, ps).out;
      !Clock(r[0])
      && WatchAll(j, Device(sel, true, sh, fr), RecRounds(t, o, ps).ops)
         == Device(sel, ps == [], if sel then sh + Repeat(MosiLine(o[0]), Edges(true, |ps|)) else [], fr)
  {
    RecRoundsOut(t, o, ps);
    RoundEndClock(o[0]);
    if sel {
      RecWatched(j, Device(sel, true, sh, fr), t, o, ps);
    } else {
      RecUnselected(j, Device(sel, true, sh, fr), t, o, ps);
    }
  }

  /** The bits device `id` receives in a command that sends `buf` and then
      clocks `n` rounds: the bits of `buf`, then the last one again on every
      rising edge of the receive (the first round brings none, as the
      clock was left high by the last bit sent). */
  function FrameSeen(buf: seq<bv8>, n: nat): (r: seq<bool>)
    requires buf != []
    ensures |r| == 8 * |buf| + Edges(true, n)
  {
    Bytes(buf) + Repeat(Bit(buf[|buf| - 1], 0), Edges(true, n))
  }

  /** A whole SRAM command from an idle bus: the bus is idle again, device
      `id` has received exactly one frame more, and every other device has
      seen nothing. */
  lemma CommandWatched(j: nat, d: Device, t: bv32, out: seq<bv8>, id: nat, lead: bool, buf: seq<bv8>, ps: seq<seq<bv8>>)
    requires j < 6 && Idle(out) && Quiet(d) && id + 2 < 31 && buf != []
    ensures Idle(CommandF(t, out, id, lead, buf, ps).out)
    ensures WatchAll(j, d, CommandF(t, out, id, lead, buf, ps).ops)
      == if j == id then d.(frames := d.frames + [FrameSeen(buf, |ps|)]) else d
  {
    var c := if lead then ClearCsF(t, out) else After([], out);
    var s := SpiSendF(t, c.out, id, buf);
    var r := RecRounds(t, s.out, ps);
    var e := ClearCsF(t, r.out);
    LeadWatched(j, d, t, out, lead);
    SpiSendWatched(j, d, t, c.out, id, buf);
    var ds := Device(j == id, true, if j == id then Bytes(buf) else [], d.frames);
    RecAfterSend(j, j == id, ds.shifted, d.frames, t, s.out, ps);
    var dr := WatchAll(j, ds, r.ops);
    ClearCsWatched(j, dr, t, r.out);
    WatchAppend(j, d, c.ops, s.ops);
    WatchAppend(j, d, c.ops + s.ops, r.ops);
    WatchAppend(j, d, c.ops + s.ops + r.ops, e.ops);
  }

  lemma BytesOne(x: bv8)
    ensures Bytes([x]) == BitsOf(x)
  {
    assert [x][1..] == [];
  }

  /** `spi_sram_write` from an idle bus: the SRAM receives the 40 bits of
      the write command, the address and the data, and nothing else; the
      other devices see nothing. */
  lemma SramWriteSeen(j: nat, d: Device, t: bv32, out: seq<bv8>, id: nat, addr: bv32, data: bv8)
    requires j < 6 && Idle(out) && Quiet(d) && id + 2 < 31
    ensures Idle(SramWriteF(t, out, id, addr, data).out)
    ensures WatchAll(j, d, SramWriteF(t, out, id, addr, data).ops)
      == if j == id then d.(frames := d.frames + [Bytes(SramWriteFrame(addr, data))]) else d
  {
    CommandWatched(j, d, t, out, id, true, SramWriteFrame(addr, data), []);
    assert FrameSeen(SramWriteFrame(addr, data), 0) == Bytes(SramWriteFrame(addr, data));
  }

  /** `spi_sram_read` from an idle bus: the SRAM receives the 32 bits of
      the read command and the address, then seven more copies of the last
      address bit while its byte is clocked out. */
  lemma SramReadSeen(j: nat, d: Device, t: bv32, out: seq<bv8>, id: nat, addr: bv32, ps: seq<seq<bv8>>)
    requires j < 6 && Idle(out) && Quiet(d) && id + 2 < 31 && |ps| == 8
    ensures Idle(SramReadF(t, out, id, addr, ps).out)
    ensures WatchAll(j, d, SramReadF(t, out, id, addr, ps).ops)
      == if j == id then d.(frames := d.frames + [Bytes(SramReadFrame(addr)) + Repeat(Bit((addr & 0xff) as bv8, 0), 7)]) else d
  {
    CommandWatched(j, d, t, out, id, true, SramReadFrame(addr), ps);
    assert SramReadFrame(addr)[3] == (addr & 0xff) as bv8;
  }

  /** `spi_sram_rdmr`: the command byte, then seven copies of its last
      bit. */
  lemma RdmrSeen(j: nat, d: Device, t: bv32, out: seq<bv8>, id: nat, ps: seq<seq<bv8>>)
    requires j < 6 && Idle(out) && Quiet(d) && id + 2 < 31 && |ps| == 8
    ensures Idle(RdmrF(t, out, id, ps).out)
    ensures WatchAll(j, d, RdmrF(t, out, id, ps).ops)
      == if j == id then d.(frames := d.frames + [BitsOf(0x05) + Repeat(true, 7)]) else d
  {
    CommandWatched(j, d, t, out, id, false, RdmrFrame, ps);
    BytesOne(0x05);
    assert Bit(0x05, 0);
  }

  /** `spi_sram_wrmr`: the command byte and the mode. */
  lemma WrmrSeen(j: nat, d: Device, t: bv32, out: seq<bv8>, id: nat, mr: bv8)
    requires j < 6 && Idle(out) && Quiet(d) && id + 2 < 31
    ensures Idle(WrmrF(t, out, id, mr).out)
    ensures WatchAll(j, d, WrmrF(t, out, id, mr).ops)
      == if j == id then d.(frames := d.frames + [BitsOf(0x01) + BitsOf(mr)]) else d
  {
    CommandWatched(j, d, t, out, id, false, WrmrFrame(mr), []);
    BytesOne(mr);
    assert WrmrFrame(mr)[1..] == [mr];
    assert FrameSeen(WrmrFrame(mr), 0) == Bytes(WrmrFrame(mr));
  }

  /** `spi_sram_reset`: the reset byte alone. */
  lemma ResetSeen(j: nat, d: Device, t: bv32, out: seq<bv8>, id: nat)
    requires j < 6 && Idle(out) && Quiet(d) && id + 2 < 31
    ensures Idle(ResetF(t, out, id).out)
    ensures WatchAll(j, d, ResetF(t, out, id).ops)
      == if j == id then d.(frames := d.frames + [BitsOf(0xff)]) else d
  {
    CommandWatched(j, d, t, out, id, false, ResetFrame, []);
    BytesOne(0xff);
    assert FrameSeen(ResetFrame, 0) == Bytes(ResetFrame);
  }

  // ---------------------------------------------------------------------
  // Steps of the host's loops

  lemma SendBitOne(t: bv32, out: seq<bv8>, v: bool)
    requires |out| == NPorts
    ensures SendBits(t, out, [v]) == SendBitF(t, out, v)
  {
    assert [v][1..] == [];
    assert SendBitF(t, out, v).ops + [] == SendBitF(t, out, v).ops;
  }

  /** The bits sent so far, one more. */
  lemma SendBitsSnoc(t: bv32, out: seq<bv8>, bits: seq<bool>, i: nat)
    requires |out| == NPorts && i < |bits|
    ensures var x := SendBits(t, out, bits[..i]);
      var y := SendBitF(t, x.out, bits[i]);
      SendBits(t, out, bits[..i + 1]) == After(x.ops + y.ops, y.out)
  {
    assert bits[..i + 1] == bits[..i] + [bits[i]];
    SendBitsAppend(t, out, bits[..i], [bits[i]]);
    SendBitOne(t, SendBits(t, out, bits[..i]).out, bits[i]);
  }

  lemma {:induction false} BytesAppend(a: seq<bv8>, b: seq<bv8>)
    ensures Bytes(a + b) == Bytes(a) + Bytes(b)
    decreases |a|
  {
    if a == [] {
      assert a + b == b;
    } else {
      assert (a + b)[0] == a[0] && (a + b)[1..] == a[1..] + b;
      BytesAppend(a[1..], b);
    }
  }

  /** The bytes sent so far, one more. */
  lemma SendBytesSnoc(t: bv32, out: seq<bv8>, buf: seq<bv8>, i: nat)
    requires |out| == NPorts && i < |buf|
    ensures var x := SendBytes(t, out, buf[..i]);
      var y := SendBits(t, x.out, BitsOf(buf[i]));
      SendBytes(t, out, buf[..i + 1]) == After(x.ops + y.ops, y.out)
  {
    assert buf[..i + 1] == buf[..i] + [buf[i]];
    BytesAppend(buf[..i], [buf[i]]);
    BytesOne(buf[i]);
    SendBytesBits(t, out, buf[..i]);
    SendBytesBits(t, out, buf[..i + 1]);
    SendBitsAppend(t, out, Bytes(buf[..i]), BitsOf(buf[i]));
  }

  lemma MisosSnoc(ps: seq<seq<bv8>>, p: seq<bv8>)
    ensures Misos(ps + [p]) == Misos(ps) + [Miso(p)]
  {
  }

  /** The rounds received so far, one more, and the byte with one more
      bit shifted in. */
  lemma RecSnoc(t: bv32, out: seq<bv8>, ps: seq<seq<bv8>>, p: seq<bv8>)
    requires |out| == NPorts
    ensures var x := RecRounds(t, out, ps);
      var y := RoundF(t, x.out, p);
      RecRounds(t, out, ps + [p]) == After(x.ops + y.ops, y.out)
    ensures PackMsb(Misos(ps + [p])) == Shifted(PackMsb(Misos(ps)), Miso(p))
  {
    assert (ps + [p])[..|ps|] == ps;
    MisosSnoc(ps, p);
    assert Misos(ps + [p])[..|ps|] == Misos(ps);
  }

  /** Receiving two runs of rounds one after the other is receiving
      them all. */
  lemma {:induction false} RecRoundsAppend(t: bv32, out: seq<bv8>, ps: seq<seq<bv8>>, qs: seq<seq<bv8>>)
    requires |out| == NPorts
    ensures var x := RecRounds(t, out, ps);
      var y := RecRounds(t, x.out, qs);
      RecRounds(t, out, ps + qs) == After(x.ops + y.ops, y.out)
    decreases |qs|
  {
    var x := RecRounds(t, out, ps);
    if qs == [] {
      assert ps + qs == ps;
      assert x.ops + [] == x.ops;
    } else {
      var n := |qs| - 1;
      RecRoundsAppend(t, out, ps, qs[..n]);
      assert ps + qs == (ps + qs[..n]) + [qs[n]];
      RecSnoc(t, out, ps + qs[..n], qs[n]);
      var y := RecRounds(t, x.out, qs[..n]);
      SeqAssoc(x.ops, y.ops, RoundF(t, y.out, qs[n]).ops);
    }
  }

  /** The bytes received so far, one more. */
  lemma ReceivedSnoc(ps: seq<seq<bv8>>, qs: seq<seq<bv8>>, i: nat)
    requires |ps| == 8 * i && |qs| == 8
    ensures Received(ps + qs, i + 1) == Received(ps, i) + [PackMsb(Misos(qs))]
  {
    forall k | 0 <= k < i
      ensures (ps + qs)[8 * k..8 * k + 8] == ps[8 * k..8 * k + 8]
    {
    }
    assert (ps + qs)[8 * i..8 * i + 8] == qs;
  }

  // ---------------------------------------------------------------------
  // The host side

  /** `spi_init`. */
  method Init(b: Board)
    requires b.Valid()
    modifies b, b.outState
    ensures b.Valid() && b.trimask == InitMask
    ensures b.outState[..] == old(b.outState[..])[0 := InitA]
    ensures b.log == old(b.log) + [Wrote(InitMask, b.outState[..])]
  {
    b.trimask := 1;
    b.outState[0] := 0xfc;
    Snapshot(b);
  }

  /** `spi_clear_cs`. */
  method ClearCs(b: Board)
    requires b.Valid()
    modifies b, b.outState
    ensures b.Valid() && b.trimask == old(b.trimask)
    ensures b.log == old(b.log) + ClearCsF(b.trimask, old(b.outState[..])).ops
    ensures b.outState[..] == ClearCsF(b.trimask, old(b.outState[..])).out
  {
    b.outState[0] := ReleaseAll(b.outState[0]);
    Snapshot(b);
  }

  /** `spi_set_cs`. */
  method SetCs(b: Board, id: nat)
    requires b.Valid() && id + 2 < 31
    modifies b, b.outState
    ensures b.Valid() && b.trimask == old(b.trimask)
    ensures b.log == old(b.log) + SetCsF(b.trimask, old(b.outState[..]), id).ops
    ensures b.outState[..] == SetCsF(b.trimask, old(b.outState[..]), id).out
  {
    b.outState[0] := Select(b.outState[0], id);
    Snapshot(b);
  }

  /** After `i` rounds of `x <<= 1`. */
  function Shl(x: bv8, i: nat): bv8
    requires i <= 8
  {
    if i == 8 then 0 else x << i
  }

  /** After `i` shifts the top bit of `x` is its bit `7 - i`, and one
      more shift is `i + 1` shifts. */
  lemma ShiftTop(x: bv8, i: nat)
    requires i < 8
    ensures Bit(Shl(x, i), 7) == Bit(x, 7 - i)
    ensures Shl(x, i) << 1 == Shl(x, i + 1)
  {
    if i == 0 {
    } else if i == 1 {
    } else if i == 2 {
    } else if i == 3 {
    } else if i == 4 {
    } else if i == 5 {
    } else if i == 6 {
    } else {
    }
  }

  lemma TopBit(y: bv8)
    ensures (y & 0x80 != 0) == Bit(y, 7)
  {
  }

  /** The top bit of `y` (`y & 0x80`) and `y <<= 1`, where `y` is `x`
      after `i` shifts. */
  method TakeTop(y: bv8, ghost x: bv8, ghost i: nat) returns (bit: bool, y': bv8)
    requires i < 8 && y == Shl(x, i)
    ensures bit == BitsOf(x)[i] && y' == Shl(x, i + 1)
  {
    ShiftTop(x, i);
    TopBit(y);
    bit := y & 0x80 != 0;
    y' := y << 1;
  }

  /** One pass of the loop of `spi_send_byte`. */
  method SendBit(b: Board, v: bool)
    requires b.Valid()
    modifies b, b.outState
    ensures b.Valid() && b.trimask == old(b.trimask)
    ensures b.log == old(b.log) + SendBitF(b.trimask, old(b.outState[..]), v).ops
    ensures b.outState[..] == SendBitF(b.trimask, old(b.outState[..]), v).out
  {
    ghost var out := b.outState[..];
    b.outState[0] := Mosi(b.outState[0], v);
    Snapshot(b);
    b.outState[0] := ClockHigh(b.outState[0]);
    assert b.outState[..] == out[0 := ClockHigh(Mosi(out[0], v))];
    Snapshot(b);
    b.outState[0] := ClockLow(b.outState[0]);
    assert b.outState[..] == out[0 := BitEnd(out[0], v)];
  }

  /** `spi_send_byte`: `x` shifted out of its top bit eight times. The
      device number is not used. */
  method SendByte(b: Board, id: nat, x: bv8)
    requires b.Valid()
    modifies b, b.outState
    ensures b.Valid() && b.trimask == old(b.trimask)
    ensures b.log == old(b.log) + SendBits(b.trimask, old(b.outState[..]), BitsOf(x)).ops
    ensures b.outState[..] == SendBits(b.trimask, old(b.outState[..]), BitsOf(x)).out
  {
    ghost var out0 := b.outState[..];
    ghost var bits := BitsOf(x);
    var y := x;
    var i := 0;
    while i < 8
      invariant 0 <= i <= 8 && b.Valid() && b.trimask == old(b.trimask)
      invariant y == Shl(x, i)
      invariant b.log == old(b.log) + SendBits(b.trimask, out0, bits[..i]).ops
      invariant b.outState[..] == SendBits(b.trimask, out0, bits[..i]).out
    {
      ghost var log0 := b.log;
      var bit;
      bit, y := TakeTop(y, x, i);
      SendBit(b, bit);
      SendBitsSnoc(b.trimask, out0, bits, i);
      SeqAssoc(old(b.log), SendBits(b.trimask, out0, bits[..i]).ops, SendBitF(b.trimask, SendBits(b.trimask, out0, bits[..i]).out, bit).ops);
      i := i + 1;
    }
    assert bits[..8] == bits;
  }

  /** `spi_send`: the chip select pulled, then every byte of `buf` (the C
      code's `buf` and `len`) sent. */
  method Send(b: Board, id: nat, buf: seq<bv8>)
    requires b.Valid() && id + 2 < 31
    modifies b, b.outState
    ensures b.Valid() && b.trimask == old(b.trimask)
    ensures b.log == old(b.log) + SpiSendF(b.trimask, old(b.outState[..]), id, buf).ops
    ensures b.outState[..] == SpiSendF(b.trimask, old(b.outState[..]), id, buf).out
  {
    SetCs(b, id);
    ghost var log1, out1 := b.log, b.outState[..];
    var i := 0;
    while i < |buf|
      invariant 0 <= i <= |buf| && b.Valid() && b.trimask == old(b.trimask)
      invariant b.log == log1 + SendBytes(b.trimask, out1, buf[..i]).ops
      invariant b.outState[..] == SendBytes(b.trimask, out1, buf[..i]).out
    {
      SendByte(b, id, buf[i]);
      SendBytesSnoc(b.trimask, out1, buf, i);
      SeqAssoc(log1, SendBytes(b.trimask, out1, buf[..i]).ops,
        SendBits(b.trimask, SendBytes(b.trimask, out1, buf[..i]).out, BitsOf(buf[i])).ops);
      i := i + 1;
    }
    assert buf[..|buf|] == buf;
    SeqAssoc(old(b.log), SetCsF(b.trimask, old(b.outState[..]), id).ops, SendBytes(b.trimask, out1, buf).ops);
  }

  /** One pass of the loop of `spi_rec_byte`: `*x` shifted, a clock pulse,
      the ports sampled into `p`, and MISO ORed in. */
  method RecRound(b: Board, x: bv8) returns (x': bv8, ghost p: seq<bv8>)
    requires b.Valid()
    modifies b, b.outState, b.inState
    ensures b.Valid() && b.trimask == old(b.trimask)
    ensures x' == Shifted(x, Miso(p))
    ensures b.log == old(b.log) + RoundF(b.trimask, old(b.outState[..]), p).ops
    ensures b.outState[..] == RoundF(b.trimask, old(b.outState[..]), p).out
  {
    ghost var out := b.outState[..];
    x' := x << 1;
    b.outState[0] := ClockHigh(b.outState[0]);
    Snapshot(b);
    b.outState[0] := ClockLow(b.outState[0]);
    assert b.outState[..] == out[0 := RoundEnd(out[0])];
    Snapshot(b);
    p := Poll(b);
    if b.inState[1] & 1 == 1 {
      x' := x' | 1;
    }
  }

  /** `spi_rec_byte`: eight clock pulses, MISO sampled after each and
      shifted in at the bottom. The device number is not used. */
  method RecByte(b: Board, id: nat) returns (x: bv8, ghost ps: seq<seq<bv8>>)
    requires b.Valid()
    modifies b, b.outState, b.inState
    ensures b.Valid() && b.trimask == old(b.trimask)
    ensures |ps| == 8 && x == PackMsb(Misos(ps))
    ensures b.log == old(b.log) + RecRounds(b.trimask, old(b.outState[..]), ps).ops
    ensures b.outState[..] == RecRounds(b.trimask, old(b.outState[..]), ps).out
  {
    ghost var out0 := b.outState[..];
    ps := [];
    x := 0;
    var i := 0;
    while i < 8
      invariant 0 <= i <= 8 && b.Valid() && b.trimask == old(b.trimask)
      invariant |ps| == i && x == PackMsb(Misos(ps))
      invariant b.log == old(b.log) + RecRounds(b.trimask, out0, ps).ops
      invariant b.outState[..] == RecRounds(b.trimask, out0, ps).out
    {
      ghost var p;
      x, p := RecRound(b, x);
      RecSnoc(b.trimask, out0, ps, p);
      SeqAssoc(old(b.log), RecRounds(b.trimask, out0, ps).ops, RoundF(b.trimask, RecRounds(b.trimask, out0, ps).out, p).ops);
      ps := ps + [p];
      i := i + 1;
    }
  }

  /** `spi_rec`: the chip select pulled, then `buf.Length` (the C code's
      `len`) bytes received into `buf`; `ps` are the samples taken. */
  method Rec(b: Board, id: nat, buf: array<bv8>) returns (ghost ps: seq<seq<bv8>>)
    requires b.Valid() && id + 2 < 31 && buf != b.outState && buf != b.inState
    modifies b, b.outState, b.inState, buf
    ensures b.Valid() && b.trimask == old(b.trimask)
    ensures |ps| == 8 * buf.Length && buf[..] == Received(ps, buf.Length)
    ensures b.log == old(b.log) + SpiRecF(b.trimask, old(b.outState[..]), id, ps).ops
    ensures b.outState[..] == SpiRecF(b.trimask, old(b.outState[..]), id, ps).out
  {
    SetCs(b, id);
    ghost var log1, out1 := b.log, b.outState[..];
    ps := [];
    var i := 0;
    while i < buf.Length
      invariant 0 <= i <= buf.Length && b.Valid() && b.trimask == old(b.trimask)
      invariant |ps| == 8 * i && buf[..i] == Received(ps, i)
      invariant b.log == log1 + RecRounds(b.trimask, out1, ps).ops
      invariant b.outState[..] == RecRounds(b.trimask, out1, ps).out
    {
      var v;
      ghost var qs;
      v, qs := RecByte(b, id);
      buf[i] := v;
      assert buf[..i + 1] == buf[..i] + [v];
      RecRoundsAppend(b.trimask, out1, ps, qs);
      ReceivedSnoc(ps, qs, i);
      SeqAssoc(log1, RecRounds(b.trimask, out1, ps).ops, RecRounds(b.trimask, RecRounds(b.trimask, out1, ps).out, qs).ops);
      ps := ps + qs;
      i := i + 1;
    }
    assert buf[..] == buf[..buf.Length];
    SeqAssoc(old(b.log), SetCsF(b.trimask, old(b.outState[..]), id).ops, RecRounds(b.trimask, out1, ps).ops);
  }

  /** The log of a command, one part after the other. */
  lemma CommandLog(log: seq<Op>, c: seq<Op>, s: seq<Op>, r: seq<Op>, e: seq<Op>)
    ensures log + c + s + r + e == log + (c + s + r + e)
  {
  }

  /** `spi_sram_write`: the bus released, the five-byte write frame sent,
      and the bus released again. */
  method SramWrite(b: Board, id: nat, addr: bv32, data: bv8)
    requires b.Valid() && id + 2 < 31
    modifies b, b.outState
    ensures b.Valid() && b.trimask == old(b.trimask)
    ensures b.log == old(b.log) + SramWriteF(b.trimask, old(b.outState[..]), id, addr, data).ops
    ensures b.outState[..] == SramWriteF(b.trimask, old(b.outState[..]), id, addr, data).out
  {
    ClearCs(b);
    Send(b, id, SramWriteFrame(addr, data));
    ClearCs(b);
    ghost var t, out := b.trimask, old(b.outState[..]);
    ghost var c := ClearCsF(t, out);
    ghost var s := SpiSendF(t, c.out, id, SramWriteFrame(addr, data));
    CommandLog(old(b.log), c.ops, s.ops, [], ClearCsF(t, s.out).ops);
  }

  /** `spi_sram_read`: the bus released, the read frame sent, one byte
      received from the samples `ps`, and the bus released again. */
  method SramRead(b: Board, id: nat, addr: bv32) returns (v: bv8, ghost ps: seq<seq<bv8>>)
    requires b.Valid() && id + 2 < 31
    modifies b, b.outState, b.inState
    ensures b.Valid() && b.trimask == old(b.trimask)
    ensures |ps| == 8 && v == PackMsb(Misos(ps))
    ensures b.log == old(b.log) + SramReadF(b.trimask, old(b.outState[..]), id, addr, ps).ops
    ensures b.outState[..] == SramReadF(b.trimask, old(b.outState[..]), id, addr, ps).out
  {
    ClearCs(b);
    Send(b, id, SramReadFrame(addr));
    v, ps := RecByte(b, id);
    ClearCs(b);
    ghost var t, out := b.trimask, old(b.outState[..]);
    ghost var c := ClearCsF(t, out);
    ghost var s := SpiSendF(t, c.out, id, SramReadFrame(addr));
    ghost var r := RecRounds(t, s.out, ps);
    CommandLog(old(b.log), c.ops, s.ops, r.ops, ClearCsF(t, r.out).ops);
  }

  /** `spi_sram_rdmr`: the read-mode command sent, one byte received, and
      the bus released. */
  method Rdmr(b: Board, id: nat) returns (v: bv8, ghost ps: seq<seq<bv8>>)
    requires b.Valid() && id + 2 < 31
    modifies b, b.outState, b.inState
    ensures b.Valid() && b.trimask == old(b.trimask)
    ensures |ps| == 8 && v == PackMsb(Misos(ps))
    ensures b.log == old(b.log) + RdmrF(b.trimask, old(b.outState[..]), id, ps).ops
    ensures b.outState[..] == RdmrF(b.trimask, old(b.outState[..]), id, ps).out
  {
    Send(b, id, RdmrFrame);
    v, ps := RecByte(b, id);
    ClearCs(b);
    ghost var t, out := b.trimask, old(b.outState[..]);
    ghost var s := SpiSendF(t, out, id, RdmrFrame);
    ghost var r := RecRounds(t, s.out, ps);
    CommandLog(old(b.log), [], s.ops, r.ops, ClearCsF(t, r.out).ops);
  }

  /** `spi_sram_wrmr`: the write-mode command and the mode sent, and the
      bus released. */
  method Wrmr(b: Board, id: nat, mr: bv8)
    requires b.Valid() && id + 2 < 31
    modifies b, b.outState
    ensures b.Valid() && b.trimask == old(b.trimask)
    ensures b.log == old(b.log) + WrmrF(b.trimask, old(b.outState[..]), id, mr).ops
    ensures b.outState[..] == WrmrF(b.trimask, old(b.outState[..]), id, mr).out
  {
    SendReleased(b, id, WrmrFrame(mr));
  }

  /** `spi_sram_reset`: the reset command sent and the bus released. */
  method SramReset(b: Board, id: nat)
    requires b.Valid() && id + 2 < 31
    modifies b, b.outState
    ensures b.Valid() && b.trimask == old(b.trimask)
    ensures b.log == old(b.log) + ResetF(b.trimask, old(b.outState[..]), id).ops
    ensures b.outState[..] == ResetF(b.trimask, old(b.outState[..]), id).out
  {
    SendReleased(b, id, ResetFrame);
  }

  /** A command that only sends: the bytes sent to device `id`, then the
      selects released. */
  method SendReleased(b: Board, id: nat, buf: seq<bv8>)
    requires b.Valid() && id + 2 < 31
    modifies b, b.outState
    ensures b.Valid() && b.trimask == old(b.trimask)
    ensures b.log == old(b.log) + CommandF(b.trimask, old(b.outState[..]), id, false, buf, []).ops
    ensures b.outState[..] == CommandF(b.trimask, old(b.outState[..]), id, false, buf, []).out
  {
    Send(b, id, buf);
    ClearCs(b);
    ghost var t, out := b.trimask, old(b.outState[..]);
    ghost var s := SpiSendF(t, out, id, buf);
    CommandLog(old(b.log), [], s.ops, [], ClearCsF(t, s.out).ops);
  }
}
