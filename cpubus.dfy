/** What host_software/z80_test.c and host_software/65c02_test.c share: the
    clock and reset lines on port A (bit 0 the clock, bit 3 the active-low
    reset), the start-up sequence, the address bus on ports C (low byte)
    and D (high byte), the 64 KiB memory the host plays, and its hex dump.
    The two files carry identical copies of these routines; the members
    below cite the Z80 copy. */
module CpuBus {
  import opened Busyboard

  /** The size of `mem`. */
  const MemSize: nat := 0x10000

  predicate ClockOn(a: bv8) { a & 1 == 1 }
  predicate ResetHeld(a: bv8) { a & 8 == 0 }

  // ---------------------------------------------------------------------
  // The clock and reset helpers

  /** Port A set to `a` and written out. */
  function PortAF(t: bv32, out: seq<bv8>, a: bv8): (r: After)
    requires |out| == NPorts
    ensures |r.out| == NPorts
  {
    var o := out[0 := a];
    After([Wrote(t, o)], o)
  }

  function SetClkF(t: bv32, out: seq<bv8>): (r: After)
    requires |out| == NPorts
    ensures |r.out| == NPorts
  {
    PortAF(t, out, out[0] | 1)
  }

  function ClearClkF(t: bv32, out: seq<bv8>): (r: After)
    requires |out| == NPorts
    ensures |r.out| == NPorts
  {
    PortAF(t, out, out[0] & 0xfe)
  }

  function AssertResetF(t: bv32, out: seq<bv8>): (r: After)
    requires |out| == NPorts
    ensures |r.out| == NPorts
  {
    PortAF(t, out, out[0] & 0xf7)
  }

  function DeassertResetF(t: bv32, out: seq<bv8>): (r: After)
    requires |out| == NPorts
    ensures |r.out| == NPorts
  {
    PortAF(t, out, out[0] | 8)
  }

  lemma SetClkBits(a: bv8) ensures ClockOn(a | 1) && (a | 1) & 0xfe == a & 0xfe { }
  lemma ClearClkBits(a: bv8) ensures !ClockOn(a & 0xfe) && (a & 0xfe) & 0xfe == a & 0xfe { }
  lemma AssertResetBits(a: bv8) ensures ResetHeld(a & 0xf7) && (a & 0xf7) & 0xf7 == a & 0xf7 { }
  lemma DeassertResetBits(a: bv8) ensures !ResetHeld(a | 8) && (a | 8) & 0xf7 == a & 0xf7 { }

  /** Port A set and written out: one snapshot, the other ports as
      they were. */
  lemma PortAOnly(t: bv32, out: seq<bv8>, a: bv8)
    requires |out| == NPorts
    ensures var r := PortAF(t, out, a);
      r.out[0] == a && r.out[1..] == out[1..] && r.ops == [Wrote(t, r.out)]
  {
    assert out[0 := a][1..] == out[1..];
  }

  /** Equal from index 1 on, so equal from index 2 on. */
  lemma TailFrom1(a: seq<bv8>, b: seq<bv8>)
    requires |a| == |b| >= 2 && a[1..] == b[1..]
    ensures a[2..] == b[2..]
  {
    assert a[2..] == a[1..][1..];
    assert b[2..] == b[1..][1..];
  }

  /** Each helper writes out one snapshot in which port A has changed in
      its own bit alone (bit 0 for the clock, bit 3 for reset), to the
      level it names, and no other port has changed. */
  lemma HelpersTouchOneBit(t: bv32, out: seq<bv8>)
    requires |out| == NPorts
    ensures var o := SetClkF(t, out).out;
      o[1..] == out[1..] && o[0] & 0xfe == out[0] & 0xfe && ClockOn(o[0]) && SetClkF(t, out).ops == [Wrote(t, o)]
    ensures var o := ClearClkF(t, out).out;
      o[1..] == out[1..] && o[0] & 0xfe == out[0] & 0xfe && !ClockOn(o[0]) && ClearClkF(t, out).ops == [Wrote(t, o)]
    ensures var o := AssertResetF(t, out).out;
      o[1..] == out[1..] && o[0] & 0xf7 == out[0] & 0xf7 && ResetHeld(o[0]) && AssertResetF(t, out).ops == [Wrote(t, o)]
    ensures var o := DeassertResetF(t, out).out;
      o[1..] == out[1..] && o[0] & 0xf7 == out[0] & 0xf7 && !ResetHeld(o[0]) && DeassertResetF(t, out).ops == [Wrote(t, o)]
  {
    SetClkBits(out[0]);
    ClearClkBits(out[0]);
    AssertResetBits(out[0]);
    DeassertResetBits(out[0]);
    PortAOnly(t, out, out[0] | 1);
    PortAOnly(t, out, out[0] & 0xfe);
    PortAOnly(t, out, out[0] & 0xf7);
    PortAOnly(t, out, out[0] | 8);
  }

  method SetClk(b: Board)
    requires b.Valid()
    modifies b, b.outState
    ensures b.Valid() && b.trimask == old(b.trimask)
    ensures b.log == old(b.log) + SetClkF(b.trimask, old(b.outState[..])).ops
    ensures b.outState[..] == SetClkF(b.trimask, old(b.outState[..])).out
  {
    b.outState[0] := b.outState[0] | 1;
    Snapshot(b);
  }

  method ClearClk(b: Board)
    requires b.Valid()
    modifies b, b.outState
    ensures b.Valid() && b.trimask == old(b.trimask)
    ensures b.log == old(b.log) + ClearClkF(b.trimask, old(b.outState[..])).ops
    ensures b.outState[..] == ClearClkF(b.trimask, old(b.outState[..])).out
  {
    b.outState[0] := b.outState[0] & 0xfe;
    Snapshot(b);
  }

  method AssertReset(b: Board)
    requires b.Valid()
    modifies b, b.outState
    ensures b.Valid() && b.trimask == old(b.trimask)
    ensures b.log == old(b.log) + AssertResetF(b.trimask, old(b.outState[..])).ops
    ensures b.outState[..] == AssertResetF(b.trimask, old(b.outState[..])).out
  {
    b.outState[0] := b.outState[0] & 0xf7;
    Snapshot(b);
  }

  method DeassertReset(b: Board)
    requires b.Valid()
    modifies b, b.outState
    ensures b.Valid() && b.trimask == old(b.trimask)
    ensures b.log == old(b.log) + DeassertResetF(b.trimask, old(b.outState[..])).ops
    ensures b.outState[..] == DeassertResetF(b.trimask, old(b.outState[..])).out
  {
    b.outState[0] := b.outState[0] | 8;
    Snapshot(b);
  }

  // ---------------------------------------------------------------------
  // `z80_init` (and `cpu_init`)

  /** Port A at rest: `~1`, the clock low and every active-low control
      line released. */
  const RestA: bv8 := 0xfe
  /** Only port A driven. */
  const CpuMask: bv32 := 1
  /** The number of clock pulses under reset. */
  const ResetPulses: nat := 10

  /** `n` clock pulses from `out`. */
  function ClockPulses(t: bv32, out: seq<bv8>, n: nat): (r: After)
    requires |out| == NPorts
    ensures |r.out| == NPorts
  {
    if n == 0 then After([], out)
    else
      var pre := ClockPulses(t, out, n - 1);
      var h := SetClkF(t, pre.out);
      var l := ClearClkF(t, h.out);
      After(pre.ops + h.ops + l.ops, l.out)
  }

  /** `z80_init`: port A at rest, reset held over ten clock pulses, then
      released. */
  function InitF(out: seq<bv8>): (r: After)
    requires |out| == NPorts
    ensures |r.out| == NPorts
  {
    var r := AssertResetF(CpuMask, out[0 := RestA]);
    var p := ClockPulses(CpuMask, r.out, ResetPulses);
    var d := DeassertResetF(CpuMask, p.out);
    After(r.ops + p.ops + d.ops, d.out)
  }

  /** Port A in a snapshot. */
  function PortA(op: Op): bv8
  {
    match op
    case Wrote(_, out) => if |out| > 0 then out[0] else 0
    case _ => 0
  }

  lemma {:induction false} ClockPulsesOps(t: bv32, out: seq<bv8>, n: nat)
    requires |out| == NPorts && out[0] == 0xf6
    ensures var r := ClockPulses(t, out, n);
      |r.ops| == 2 * n && r.out == out
      && forall k :: 0 <= k < 2 * n ==> r.ops[k] == Wrote(t, out[0 := if k % 2 == 0 then 0xf7 else 0xf6])
  {
    if n > 0 {
      ClockPulsesOps(t, out, n - 1);
      var pre := ClockPulses(t, out, n - 1);
      assert out[0 := 0xf7][0 := 0xf6] == out;
      assert out[0 := 0xf6] == out;
    }
  }

  /** `z80_init`'s snapshots: 22 of them, all with only port A driven;
      reset held in all but the last, the clock high in exactly the
      second, fourth, ..., twentieth (ten pulses), and in the last reset
      released with the clock low and every other line of port A high. */
  lemma InitSnapshots(out: seq<bv8>)
    requires |out| == NPorts
    ensures var ops := InitF(out).ops;
      |ops| == 2 * ResetPulses + 2
      && (forall k :: 0 <= k < |ops| ==> ops[k].Wrote? && ops[k].trimask == CpuMask)
      && (forall k :: 0 <= k < |ops| - 1 ==> ResetHeld(PortA(ops[k])))
      && (forall k :: 0 <= k < |ops| ==> (ClockOn(PortA(ops[k])) <==> k % 2 == 1 && k < |ops| - 1))
      && PortA(ops[|ops| - 1]) == RestA
    ensures InitF(out).out == out[0 := RestA]
  {
    var o := out[0 := 0xf6];
    assert out[0 := RestA][0 := RestA & 0xf7] == o;
    ClockPulsesOps(CpuMask, o, ResetPulses);
    assert o[0 := 0xf6 | 8] == out[0 := RestA];
    var ops := InitF(out).ops;
    var p := ClockPulses(CpuMask, o, ResetPulses);
    assert ops == [Wrote(CpuMask, o)] + p.ops + [Wrote(CpuMask, out[0 := RestA])];
    forall k | 0 <= k < |ops|
      ensures ops[k].Wrote? && ops[k].trimask == CpuMask
      ensures k < |ops| - 1 ==> ResetHeld(PortA(ops[k]))
      ensures ClockOn(PortA(ops[k])) <==> k % 2 == 1 && k < |ops| - 1
    {
      if 0 < k < |ops| - 1 {
        assert ops[k] == p.ops[k - 1];
      }
    }
  }

  method Init(b: Board)
    requires b.Valid()
    modifies b, b.outState
    ensures b.Valid() && b.trimask == CpuMask
    ensures b.log == old(b.log) + InitF(old(b.outState[..])).ops
    ensures b.outState[..] == InitF(old(b.outState[..])).out
  {
    b.outState[0] := RestA;
    b.trimask := CpuMask;
    AssertReset(b);
    Pulses(b, ResetPulses);
    DeassertReset(b);
    ghost var r := AssertResetF(CpuMask, old(b.outState[..])[0 := RestA]);
    ghost var p := ClockPulses(CpuMask, r.out, ResetPulses);
    assert b.log == old(b.log) + r.ops + p.ops + DeassertResetF(CpuMask, p.out).ops;
  }

  /** `n` clock pulses, each a raise then a lower of the clock. */
  method Pulses(b: Board, n: nat)
    requires b.Valid()
    modifies b, b.outState
    ensures b.Valid() && b.trimask == old(b.trimask)
    ensures b.log == old(b.log) + ClockPulses(b.trimask, old(b.outState[..]), n).ops
    ensures b.outState[..] == ClockPulses(b.trimask, old(b.outState[..]), n).out
  {
    ghost var log1, out1 := b.log, b.outState[..];
    var i := 0;
    while i < n
      invariant 0 <= i <= n && b.Valid() && b.trimask == old(b.trimask)
      invariant b.log == log1 + ClockPulses(b.trimask, out1, i).ops
      invariant b.outState[..] == ClockPulses(b.trimask, out1, i).out
    {
      ghost var pre := ClockPulses(b.trimask, out1, i);
      SetClk(b);
      ghost var h := SetClkF(b.trimask, pre.out);
      ClearClk(b);
      assert log1 + pre.ops + h.ops + ClearClkF(b.trimask, h.out).ops
        == log1 + (pre.ops + h.ops + ClearClkF(b.trimask, h.out).ops);
      i := i + 1;
    }
  }

  // ---------------------------------------------------------------------
  // The address bus

  /** `(in_state[3] << 8) | in_state[2]` from a sample of the ports; the
      two bytes do not overlap, so the OR is a sum. */
  function Addr(p: seq<bv8>): (r: nat)
    requires |p| == NPorts
  {
    p[3] as nat * 256 + p[2] as nat
  }

  lemma HighLow(hi: nat, lo: nat, a: int)
    requires hi < 256 && lo < 256 && a == hi * 256 + lo
    ensures a < 0x10000 && a / 256 == hi && a % 256 == lo
  {
  }

  lemma ByteNat(x: bv8, y: bv8)
    ensures x as nat < 256
    ensures x as nat == y as nat <==> x == y
  {
  }

  /** The two address bytes of a sample, recovered from its address. */
  lemma AddrBytes(p: seq<bv8>)
    requires |p| == NPorts
    ensures Addr(p) < MemSize
    ensures Addr(p) % 256 == p[2] as nat && Addr(p) / 256 == p[3] as nat
  {
    HighLow(p[3] as nat, p[2] as nat, Addr(p));
  }

  /** Every address is a cell of `mem`, and each is the sample of exactly
      one pair of address bytes. */
  lemma AddrRange(p: seq<bv8>, q: seq<bv8>)
    requires |p| == NPorts && |q| == NPorts
    ensures Addr(p) < MemSize
    ensures Addr(p) == Addr(q) <==> p[2] == q[2] && p[3] == q[3]
  {
    AddrBytes(p);
    AddrBytes(q);
    if Addr(p) == Addr(q) {
      ByteNat(p[2], q[2]);
      ByteNat(p[3], q[3]);
    }
  }

  /** `z80_get_addr` (and `cpu_get_addr`): the ports sampled, and the
      address read off ports C and D of that sample. */
  method GetAddr(b: Board) returns (addr: nat, ghost p: seq<bv8>)
    requires b.Valid()
    modifies b, b.inState
    ensures b.Valid() && b.trimask == old(b.trimask) && b.outState[..] == old(b.outState[..])
    ensures |p| == NPorts && addr == Addr(p) && addr < MemSize
    ensures b.log == old(b.log) + [Sampled(p), Wrote(b.trimask, b.outState[..])]
  {
    p := Poll(b);
    AddrBytes(p);
    addr := b.inState[3] as nat * 256 + b.inState[2] as nat;
  }

  // ---------------------------------------------------------------------
  // One emulated bus cycle

  /** What one bus cycle leaves behind: the snapshots and samples it put
      on the log, the tristate mask, the output ports and the memory. */
  datatype Cycle = Cycle(ops: seq<Op>, tri: bv32, out: seq<bv8>, mem: seq<bv8>)

  /** The port samples one pass of a CPU test's main loop takes: the
      cycle's address, status and (on a write) data samples, then the
      address and status samples of `print_bus_status`. */
  datatype Polls = Polls(p1: seq<bv8>, p2: seq<bv8>, p3: seq<bv8>, q1: seq<bv8>, q2: seq<bv8>)
  {
    predicate Full()
    {
      |p1| == NPorts && |p2| == NPorts && |p3| == NPorts && |q1| == NPorts && |q2| == NPorts
    }
  }

  lemma FullSnoc(ss: seq<Polls>, s: Polls)
    requires (forall k :: 0 <= k < |ss| ==> ss[k].Full()) && s.Full()
    ensures forall k :: 0 <= k < |ss + [s]| ==> (ss + [s])[k].Full()
  {
    forall k | 0 <= k < |ss + [s]|
      ensures (ss + [s])[k].Full()
    {
      if k < |ss| {
        assert (ss + [s])[k] == ss[k];
      }
    }
  }

  /** Port B driven by the host. */
  predicate DrivesData(t: bv32) { t & 2 == 2 }

  /** `trimask |= 2`: port B driven. */
  function Drive(t: bv32): bv32 { t | 2 }

  /** `trimask &= ~2`: port B released. */
  function Release(t: bv32): bv32 { t & 0xffff_fffd }

  /** Each of the two changes only bit 1 of the mask. */
  lemma DriveBits(t: bv32)
    ensures DrivesData(Drive(t)) && Release(Drive(t)) == Release(t)
  {
  }

  lemma ReleaseBits(t: bv32)
    ensures !DrivesData(Release(t)) && Release(Release(t)) == Release(t)
  {
  }
}
