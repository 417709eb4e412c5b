/** host_software/z80_test.c: the host plays the memory of a Z80. Each
    bus cycle it samples the address (ports C and D) and the active-low
    status pins (port E), and either drives the data bus (port B) from
    `mem` or, on a memory write, stores what the CPU drives there. */
module Z80 {
  import opened Busyboard
  import opened CpuBus

  /** `enum z80_status`: the status bits the host tests. */
  const Mreq: bv8 := 0x01
  const Iorq: bv8 := 0x02
  const Rd: bv8 := 0x20
  const Wr: bv8 := 0x40

  /** `~bb->in_state[4]`: the byte is promoted to `int` before the
      complement, so the status is a negative number. */
  function Status(p: seq<bv8>): (s: int)
    requires |p| == NPorts
    ensures -256 <= s < 0
  {
    -1 - p[4] as int
  }

  /** `status & mask` for one of the `enum z80_status` masks, which all lie
      in the low byte: bits 0..7 of a two's-complement `int` are its value
      modulo 256. */
  predicate Has(s: int, mask: bv8)
  {
    ((s % 256) as bv8) & mask != 0
  }

  lemma Complement(x: bv8)
    ensures ((-1 - x as int) % 256) as bv8 == !x
  {
    var y := !x;
    assert y as int + x as int == 255;
    assert (-1 - x as int) % 256 == y as int;
  }

  /** Status pin `mask` of port E is low (asserted) in the sample `p`. */
  predicate Active(p: seq<bv8>, mask: bv8)
    requires |p| == NPorts
  {
    p[4] & mask == 0
  }

  /** The low byte of the status is the complement of port E, so for a
      one-bit mask a status bit is set exactly when its active-low pin is
      low. */
  lemma StatusLowByte(p: seq<bv8>, mask: bv8)
    requires |p| == NPorts
    requires mask == Mreq || mask == Iorq || mask == Rd || mask == Wr
    ensures ((Status(p) % 256) as bv8) == !p[4]
    ensures Has(Status(p), mask) <==> Active(p, mask)
  {
    Complement(p[4]);
    ComplementMask(p[4], mask);
  }

  lemma ComplementMask(x: bv8, mask: bv8)
    requires mask == Mreq || mask == Iorq || mask == Rd || mask == Wr
    ensures !x & mask != 0 <==> x & mask == 0
  {
  }

  /** `z80_emulate_cyc`, given the address sample `p1`, the status sample
      `p2` and, on a write, the data sample `p3`. */
  function EmulateF(t: bv32, out: seq<bv8>, mem: seq<bv8>, p1: seq<bv8>, p2: seq<bv8>, p3: seq<bv8>): (c: Cycle)
    requires |out| == NPorts && |mem| == MemSize && |p1| == NPorts && |p2| == NPorts && |p3| == NPorts
    ensures |c.out| == NPorts && |c.mem| == MemSize
  {
    AddrBytes(p1);
    var addr := Addr(p1);
    var polls := [Sampled(p1), Wrote(t, out), Sampled(p2), Wrote(t, out)];
    if Active(p2, Rd) then
      var o := if Active(p2, Mreq) then out[1 := mem[addr]]
               else if Active(p2, Iorq) then out[1 := 0]
               else out;
      Cycle(polls + [Wrote(Drive(t), o)], Drive(t), o, mem)
    else
      var t' := Release(t);
      if Active(p2, Wr) then
        var m := if Active(p2, Mreq) then mem[addr := p3[1]] else mem;
        Cycle(polls + [Wrote(t', out), Sampled(p3), Wrote(t', out), Wrote(t', out)], t', out, m)
      else
        Cycle(polls + [Wrote(t', out), Wrote(t', out)], t', out, mem)
  }

  /** A read cycle: the host drives port B with the addressed byte on a
      memory read, with 0 on an I/O read, and leaves it as it was
      otherwise; no other port changes, and memory is untouched. */
  lemma ReadCycle(t: bv32, out: seq<bv8>, mem: seq<bv8>, p1: seq<bv8>, p2: seq<bv8>, p3: seq<bv8>)
    requires |out| == NPorts && |mem| == MemSize && |p1| == NPorts && |p2| == NPorts && |p3| == NPorts
    requires Active(p2, Rd)
    ensures var c := EmulateF(t, out, mem, p1, p2, p3);
      c.mem == mem && DrivesData(c.tri) && Release(c.tri) == Release(t)
      && c.out[1] == (if Active(p2, Mreq) then mem[Addr(p1)] else if Active(p2, Iorq) then 0 else out[1])
      && c.out[0] == out[0] && c.out[2..] == out[2..]
      && c.ops == [Sampled(p1), Wrote(t, out), Sampled(p2), Wrote(t, out), Wrote(c.tri, c.out)]
  {
    ReadShape(t, out, mem, p1, p2, p3);
    DriveBits(t);
    var c := EmulateF(t, out, mem, p1, p2, p3);
    assert c.out[2..] == out[2..];
  }

  lemma ReadShape(t: bv32, out: seq<bv8>, mem: seq<bv8>, p1: seq<bv8>, p2: seq<bv8>, p3: seq<bv8>)
    requires |out| == NPorts && |mem| == MemSize && |p1| == NPorts && |p2| == NPorts && |p3| == NPorts
    requires Active(p2, Rd)
    ensures var c := EmulateF(t, out, mem, p1, p2, p3);
      var o := if Active(p2, Mreq) then out[1 := mem[Addr(p1)]]
               else if Active(p2, Iorq) then out[1 := 0]
               else out;
      c == Cycle([Sampled(p1), Wrote(t, out), Sampled(p2), Wrote(t, out)] + [Wrote(Drive(t), o)], Drive(t), o, mem)
  {
  }

  /** A cycle that is not a read: port B is released and no port changes;
      memory changes only on a memory write, and then only in the
      addressed cell, which takes the byte the CPU drives on port B. */
  lemma OtherCycle(t: bv32, out: seq<bv8>, mem: seq<bv8>, p1: seq<bv8>, p2: seq<bv8>, p3: seq<bv8>)
    requires |out| == NPorts && |mem| == MemSize && |p1| == NPorts && |p2| == NPorts && |p3| == NPorts
    requires !Active(p2, Rd)
    ensures var c := EmulateF(t, out, mem, p1, p2, p3);
      !DrivesData(c.tri) && Release(c.tri) == Release(t) && c.out == out
      && c.mem == (if Active(p2, Wr) && Active(p2, Mreq) then mem[Addr(p1) := p3[1]] else mem)
      && c.ops == [Sampled(p1), Wrote(t, out), Sampled(p2), Wrote(t, out)]
        + (if Active(p2, Wr) then [Wrote(c.tri, out), Sampled(p3), Wrote(c.tri, out), Wrote(c.tri, out)]
                        else [Wrote(c.tri, out), Wrote(c.tri, out)])
  {
    OtherShape(t, out, mem, p1, p2, p3);
    ReleaseBits(t);
  }

  lemma OtherShape(t: bv32, out: seq<bv8>, mem: seq<bv8>, p1: seq<bv8>, p2: seq<bv8>, p3: seq<bv8>)
    requires |out| == NPorts && |mem| == MemSize && |p1| == NPorts && |p2| == NPorts && |p3| == NPorts
    requires !Active(p2, Rd)
    ensures var c := EmulateF(t, out, mem, p1, p2, p3);
      var t' := Release(t);
      var polls := [Sampled(p1), Wrote(t, out), Sampled(p2), Wrote(t, out)];
      c == if Active(p2, Wr)
           then Cycle(polls + [Wrote(t', out), Sampled(p3), Wrote(t', out), Wrote(t', out)], t', out,
                      if Active(p2, Mreq) then mem[Addr(p1) := p3[1]] else mem)
           else Cycle(polls + [Wrote(t', out), Wrote(t', out)], t', out, mem)
  {
  }

  /** Whatever the cycle, every cell but the addressed one keeps its
      value, and an I/O cycle leaves all of memory as it was. */
  lemma MemoryFrame(t: bv32, out: seq<bv8>, mem: seq<bv8>, p1: seq<bv8>, p2: seq<bv8>, p3: seq<bv8>)
    requires |out| == NPorts && |mem| == MemSize && |p1| == NPorts && |p2| == NPorts && |p3| == NPorts
    ensures var c := EmulateF(t, out, mem, p1, p2, p3);
      (forall a :: 0 <= a < MemSize && a != Addr(p1) ==> c.mem[a] == mem[a])
      && (!Active(p2, Mreq) ==> c.mem == mem)
  {
  }

  /** A memory write followed by a memory read of the same address drives
      the written byte back onto the data bus. */
  lemma WriteThenRead(t: bv32, out: seq<bv8>, mem: seq<bv8>, p1: seq<bv8>, p2: seq<bv8>, p3: seq<bv8>,
                      q1: seq<bv8>, q2: seq<bv8>, q3: seq<bv8>)
    requires |out| == NPorts && |mem| == MemSize && |p1| == NPorts && |p2| == NPorts && |p3| == NPorts
    requires |q1| == NPorts && |q2| == NPorts && |q3| == NPorts
    requires !Active(p2, Rd) && Active(p2, Wr) && Active(p2, Mreq)
    requires Active(q2, Rd) && Active(q2, Mreq) && Addr(q1) == Addr(p1)
    ensures var c1 := EmulateF(t, out, mem, p1, p2, p3);
      var c2 := EmulateF(c1.tri, c1.out, c1.mem, q1, q2, q3);
      c2.out[1] == p3[1] && DrivesData(c2.tri)
  {
    OtherCycle(t, out, mem, p1, p2, p3);
    var c1 := EmulateF(t, out, mem, p1, p2, p3);
    AddrBytes(p1);
    ReadCycle(c1.tri, c1.out, c1.mem, q1, q2, q3);
  }

  /** `z80_get_status`: the ports sampled, and the status computed from
      that sample. */
  method GetStatus(b: Board) returns (s: int, ghost p: seq<bv8>)
    requires b.Valid()
    modifies b, b.inState
    ensures b.Valid() && b.trimask == old(b.trimask) && b.outState[..] == old(b.outState[..])
    ensures |p| == NPorts && s == Status(p)
    ensures b.log == old(b.log) + [Sampled(p), Wrote(b.trimask, b.outState[..])]
  {
    p := Poll(b);
    s := -1 - b.inState[4] as int;
  }

  /** `z80_emulate_cyc` over the host's memory `mem`. The samples it takes
      are returned as ghosts (`p3` is only taken on a write cycle). */
  method EmulateCyc(b: Board, mem: array<bv8>) returns (ghost p1: seq<bv8>, ghost p2: seq<bv8>, ghost p3: seq<bv8>)
    requires b.Valid() && mem.Length == MemSize && mem != b.outState && mem != b.inState
    modifies b, b.outState, b.inState, mem
    ensures b.Valid() && |p1| == NPorts && |p2| == NPorts && |p3| == NPorts
    ensures var c := EmulateF(old(b.trimask), old(b.outState[..]), old(mem[..]), p1, p2, p3);
      b.log == old(b.log) + c.ops && b.trimask == c.tri && b.outState[..] == c.out && mem[..] == c.mem
  {
    ghost var t0, o0, m0, log0 := b.trimask, b.outState[..], mem[..], b.log;
    var addr;
    addr, p1 := GetAddr(b);
    var s;
    s, p2 := GetStatus(b);
    ghost var polls := [Sampled(p1), Wrote(t0, o0), Sampled(p2), Wrote(t0, o0)];
    assert b.log == log0 + polls;
    StatusLowByte(p2, Rd);
    StatusLowByte(p2, Mreq);
    StatusLowByte(p2, Iorq);
    StatusLowByte(p2, Wr);
    var rd, mreq, iorq, wr := Has(s, Rd), Has(s, Mreq), Has(s, Iorq), Has(s, Wr);
    ghost var log1 := b.log;
    if rd {
      ServeRead(b, mem, addr, mreq, iorq);
      p3 := p2;
      ReadShape(t0, o0, m0, p1, p2, p3);
    } else {
      p3 := ServeOther(b, mem, addr, mreq, wr, p2);
      OtherShape(t0, o0, m0, p1, p2, p3);
    }
    SeqAssoc(log0, polls, b.log[|log1|..]);
  }

  /** The read half of `z80_emulate_cyc`: drive port B and write it out. */
  method ServeRead(b: Board, mem: array<bv8>, addr: nat, mreq: bool, iorq: bool)
    requires b.Valid() && mem.Length == MemSize && mem != b.outState && mem != b.inState && addr < MemSize
    modifies b, b.outState
    ensures b.Valid() && b.trimask == Drive(old(b.trimask))
    ensures b.outState[..] == (if mreq then old(b.outState[..])[1 := mem[addr]]
                               else if iorq then old(b.outState[..])[1 := 0]
                               else old(b.outState[..]))
    ensures b.log == old(b.log) + [Wrote(b.trimask, b.outState[..])]
  {
    if mreq {
      b.outState[1] := mem[addr];
    } else if iorq {
      b.outState[1] := 0;
    }
    b.trimask := Drive(b.trimask);
    Snapshot(b);
  }

  /** The other half: release port B, and on a write sample it and, for a
      memory write, store it. */
  method ServeOther(b: Board, mem: array<bv8>, addr: nat, mreq: bool, wr: bool, ghost p2: seq<bv8>)
      returns (ghost p3: seq<bv8>)
    requires b.Valid() && mem.Length == MemSize && mem != b.outState && mem != b.inState && addr < MemSize
    requires |p2| == NPorts
    modifies b, b.inState, mem
    ensures b.Valid() && b.trimask == Release(old(b.trimask)) && b.outState[..] == old(b.outState[..])
    ensures |p3| == NPorts && (!wr ==> p3 == p2)
    ensures mem[..] == (if wr && mreq then old(mem[..])[addr := p3[1]] else old(mem[..]))
    ensures var w := Wrote(b.trimask, b.outState[..]);
      b.log == old(b.log) + (if wr then [w, Sampled(p3), w, w] else [w, w])
  {
    p3 := p2;
    b.trimask := Release(b.trimask);
    Snapshot(b);
    if wr {
      p3 := ServeWrite(b, mem, addr, mreq);
      ghost var w := Wrote(b.trimask, b.outState[..]);
      assert old(b.log) + [w] + [Sampled(p3), w, w] == old(b.log) + [w, Sampled(p3), w, w];
    } else {
      Snapshot(b);
    }
  }

  /** A write cycle: port B sampled and, on a memory write, stored. */
  method ServeWrite(b: Board, mem: array<bv8>, addr: nat, mreq: bool) returns (ghost p3: seq<bv8>)
    requires b.Valid() && mem.Length == MemSize && mem != b.outState && mem != b.inState && addr < MemSize
    modifies b, b.inState, mem
    ensures b.Valid() && b.trimask == old(b.trimask) && b.outState[..] == old(b.outState[..])
    ensures |p3| == NPorts && mem[..] == (if mreq then old(mem[..])[addr := p3[1]] else old(mem[..]))
    ensures var w := Wrote(b.trimask, b.outState[..]);
      b.log == old(b.log) + [Sampled(p3), w, w]
  {
    p3 := Poll(b);
    var val := b.inState[1];
    if mreq {
      mem[addr] := val;
    }
    Snapshot(b);
  }

  /** One pass of `main`'s loop from mask `t`, outputs `out` and memory
      `mem`, given its samples: the clock raised, a bus cycle served while
      it is high, the clock lowered, and the two samples
      `print_bus_status` takes. */
  function PassF(t: bv32, out: seq<bv8>, mem: seq<bv8>, s: Polls): (c: Cycle)
    requires |out| == NPorts && |mem| == MemSize && s.Full()
    ensures |c.out| == NPorts && |c.mem| == MemSize
  {
    var high := SetClkF(t, out).out;
    var e := EmulateF(t, high, mem, s.p1, s.p2, s.p3);
    var low := ClearClkF(e.tri, e.out).out;
    Cycle([Wrote(t, high)] + e.ops + [Wrote(e.tri, low)]
            + [Sampled(s.q1), Wrote(e.tri, low), Sampled(s.q2), Wrote(e.tri, low)],
          e.tri, low, e.mem)
  }

  /** A pass serves its cycle with the clock high and leaves it low. */
  lemma PassClock(t: bv32, out: seq<bv8>, mem: seq<bv8>, s: Polls)
    requires |out| == NPorts && |mem| == MemSize && s.Full()
    ensures var high := SetClkF(t, out).out;
      ClockOn(high[0]) && EmulateF(t, high, mem, s.p1, s.p2, s.p3).out[0] == high[0]
    ensures !ClockOn(PassF(t, out, mem, s).out[0])
  {
    var high := SetClkF(t, out).out;
    HelpersTouchOneBit(t, out);
    var e := EmulateF(t, high, mem, s.p1, s.p2, s.p3);
    CycleKeepsClock(t, high, mem, s.p1, s.p2, s.p3);
    HelpersTouchOneBit(e.tri, e.out);
  }

  /** A pass changes only the data-bus direction bit of the mask, and of
      the outputs only the clock bit of port A and port B. */
  lemma PassPorts(t: bv32, out: seq<bv8>, mem: seq<bv8>, s: Polls)
    requires |out| == NPorts && |mem| == MemSize && s.Full()
    ensures var c := PassF(t, out, mem, s);
      Release(c.tri) == Release(t) && c.out[0] & 0xfe == out[0] & 0xfe && c.out[2..] == out[2..]
  {
    var high := SetClkF(t, out).out;
    HelpersTouchOneBit(t, out);
    TailFrom1(high, out);
    var e := EmulateF(t, high, mem, s.p1, s.p2, s.p3);
    CycleKeepsClock(t, high, mem, s.p1, s.p2, s.p3);
    var low := ClearClkF(e.tri, e.out).out;
    HelpersTouchOneBit(e.tri, e.out);
    TailFrom1(low, e.out);
  }

  /** The one memory cell a pass may change is the cycle's address, and
      only on a memory cycle. */
  lemma PassMemory(t: bv32, out: seq<bv8>, mem: seq<bv8>, s: Polls)
    requires |out| == NPorts && |mem| == MemSize && s.Full()
    ensures var c := PassF(t, out, mem, s);
      && (forall a :: 0 <= a < MemSize && a != Addr(s.p1) ==> c.mem[a] == mem[a])
      && (!Active(s.p2, Mreq) ==> c.mem == mem)
  {
    var high := SetClkF(t, out).out;
    MemoryFrame(t, high, mem, s.p1, s.p2, s.p3);
  }

  /** Whatever the cycle, port A and ports C onwards keep their values,
      and only the data-bus direction bit of the mask changes. */
  lemma CycleKeepsClock(t: bv32, out: seq<bv8>, mem: seq<bv8>, p1: seq<bv8>, p2: seq<bv8>, p3: seq<bv8>)
    requires |out| == NPorts && |mem| == MemSize && |p1| == NPorts && |p2| == NPorts && |p3| == NPorts
    ensures var c := EmulateF(t, out, mem, p1, p2, p3);
      c.out[0] == out[0] && c.out[2..] == out[2..] && Release(c.tri) == Release(t)
  {
    if Active(p2, Rd) {
      ReadCycle(t, out, mem, p1, p2, p3);
    } else {
      OtherCycle(t, out, mem, p1, p2, p3);
    }
  }

  /** `main`'s loop over the samples of its passes, one pass after the
      other. */
  function RunF(t: bv32, out: seq<bv8>, mem: seq<bv8>, ss: seq<Polls>): (c: Cycle)
    requires |out| == NPorts && |mem| == MemSize && forall k :: 0 <= k < |ss| ==> ss[k].Full()
    ensures |c.out| == NPorts && |c.mem| == MemSize
    decreases |ss|
  {
    if ss == [] then Cycle([], t, out, mem)
    else
      var c := RunF(t, out, mem, ss[..|ss| - 1]);
      var d := PassF(c.tri, c.out, c.mem, ss[|ss| - 1]);
      Cycle(c.ops + d.ops, d.tri, d.out, d.mem)
  }

  /** One more pass appended to the loop. */
  lemma RunSnoc(t: bv32, out: seq<bv8>, mem: seq<bv8>, ss: seq<Polls>, s: Polls)
    requires |out| == NPorts && |mem| == MemSize && forall k :: 0 <= k < |ss| ==> ss[k].Full()
    requires s.Full()
    ensures var c := RunF(t, out, mem, ss);
      var d := PassF(c.tri, c.out, c.mem, s);
      var r := RunF(t, out, mem, ss + [s]);
      r.ops == c.ops + d.ops && r.tri == d.tri && r.out == d.out && r.mem == d.mem
  {
    assert (ss + [s])[..|ss|] == ss;
  }

  /** Over the whole loop only the data-bus direction bit of the mask
      changes. */
  lemma {:induction false} RunMask(t: bv32, out: seq<bv8>, mem: seq<bv8>, ss: seq<Polls>)
    requires |out| == NPorts && |mem| == MemSize && forall k :: 0 <= k < |ss| ==> ss[k].Full()
    ensures Release(RunF(t, out, mem, ss).tri) == Release(t)
    decreases |ss|
  {
    if ss != [] {
      var init := ss[..|ss| - 1];
      assert forall k :: 0 <= k < |init| ==> init[k] == ss[k];
      RunMask(t, out, mem, init);
      var c := RunF(t, out, mem, init);
      PassPorts(c.tri, c.out, c.mem, ss[|ss| - 1]);
    }
  }

  /** Over the whole loop only the clock bit of port A and port B change
      among the outputs. */
  lemma {:induction false} RunOutputs(t: bv32, out: seq<bv8>, mem: seq<bv8>, ss: seq<Polls>)
    requires |out| == NPorts && |mem| == MemSize && forall k :: 0 <= k < |ss| ==> ss[k].Full()
    ensures var o := RunF(t, out, mem, ss).out;
      o[0] & 0xfe == out[0] & 0xfe && o[2..] == out[2..]
    decreases |ss|
  {
    if ss != [] {
      var init := ss[..|ss| - 1];
      assert forall k :: 0 <= k < |init| ==> init[k] == ss[k];
      RunOutputs(t, out, mem, init);
      var c := RunF(t, out, mem, init);
      PassPorts(c.tri, c.out, c.mem, ss[|ss| - 1]);
    }
  }

  /** After at least one pass the clock is low. */
  lemma RunClockLow(t: bv32, out: seq<bv8>, mem: seq<bv8>, ss: seq<Polls>)
    requires |out| == NPorts && |mem| == MemSize && forall k :: 0 <= k < |ss| ==> ss[k].Full()
    requires ss != []
    ensures !ClockOn(RunF(t, out, mem, ss).out[0])
  {
    var c := RunF(t, out, mem, ss[..|ss| - 1]);
    PassClock(c.tri, c.out, c.mem, ss[|ss| - 1]);
  }

  /** A memory cell that no pass of the loop addresses keeps its value. */
  lemma {:induction false} RunMemory(t: bv32, out: seq<bv8>, mem: seq<bv8>, ss: seq<Polls>, a: nat)
    requires |out| == NPorts && |mem| == MemSize && forall k :: 0 <= k < |ss| ==> ss[k].Full()
    requires a < MemSize && forall k :: 0 <= k < |ss| ==> ss[k].Full() && Addr(ss[k].p1) != a
    ensures RunF(t, out, mem, ss).mem[a] == mem[a]
    decreases |ss|
  {
    if ss != [] {
      var init := ss[..|ss| - 1];
      assert forall k :: 0 <= k < |init| ==> init[k] == ss[k];
      RunMemory(t, out, mem, init, a);
      var c := RunF(t, out, mem, init);
      PassMemory(c.tri, c.out, c.mem, ss[|ss| - 1]);
      assert Addr(ss[|ss| - 1].p1) != a;
    }
  }

  /** One pass of `main`'s loop: memory, mask, outputs and the log end as
      `PassF` says, for the samples `s` the pass takes. */
  method Iteration(b: Board, mem: array<bv8>) returns (ghost s: Polls)
    requires b.Valid() && mem.Length == MemSize && mem != b.outState && mem != b.inState
    modifies b, b.outState, b.inState, mem
    ensures b.Valid() && s.Full()
    ensures var c := PassF(old(b.trimask), old(b.outState[..]), old(mem[..]), s);
      b.log == old(b.log) + c.ops && b.trimask == c.tri && b.outState[..] == c.out && mem[..] == c.mem
  {
    ghost var t0, o0, m0, log0 := b.trimask, b.outState[..], mem[..], b.log;
    SetClk(b);
    ghost var high := b.outState[..];
    ghost var log1 := b.log;
    ghost var p1, p2, p3 := EmulateCyc(b, mem);
    ghost var e := EmulateF(t0, high, m0, p1, p2, p3);
    ghost var log2 := b.log;
    ClearClk(b);
    ghost var log3 := b.log;
    var addr, st;
    ghost var q1, q2;
    addr, st, q1, q2 := BusStatus(b);
    ghost var low := b.outState[..];
    assert log1 == log0 + [Wrote(t0, high)];
    assert log2 == log1 + e.ops;
    assert log3 == log2 + [Wrote(e.tri, low)];
    ghost var tail := [Sampled(q1), Wrote(e.tri, low), Sampled(q2), Wrote(e.tri, low)];
    assert b.log == log3 + tail;
    Assoc4(log0, [Wrote(t0, high)], e.ops, [Wrote(e.tri, low)], tail);
    s := Polls(p1, p2, p3, q1, q2);
  }

  /** The two samples `print_bus_status` takes: the address, then the
      status; the mask and the outputs stay as they are. */
  method BusStatus(b: Board) returns (addr: nat, s: int, ghost q1: seq<bv8>, ghost q2: seq<bv8>)
    requires b.Valid()
    modifies b, b.inState
    ensures b.Valid() && b.trimask == old(b.trimask) && b.outState[..] == old(b.outState[..])
    ensures |q1| == NPorts && addr == Addr(q1) && addr < MemSize
    ensures |q2| == NPorts && s == Status(q2)
    ensures b.log == old(b.log) + [Sampled(q1), Wrote(b.trimask, b.outState[..]),
                                   Sampled(q2), Wrote(b.trimask, b.outState[..])]
  {
    addr, q1 := GetAddr(b);
    s, q2 := GetStatus(b);
  }

  /** `main`'s loop, `n` iterations, `ss[i]` holding the samples of pass
      `i`: memory, mask, outputs and log end as `RunF` says, so only the
      data-bus direction bit, the clock bit of port A and port B change,
      and the clock ends low. */
  method Run(b: Board, mem: array<bv8>, n: nat) returns (ghost ss: seq<Polls>)
    requires b.Valid() && mem.Length == MemSize && mem != b.outState && mem != b.inState
    modifies b, b.outState, b.inState, mem
    ensures b.Valid() && |ss| == n && forall k :: 0 <= k < n ==> ss[k].Full()
    ensures var c := RunF(old(b.trimask), old(b.outState[..]), old(mem[..]), ss);
      b.log == old(b.log) + c.ops && b.trimask == c.tri && b.outState[..] == c.out && mem[..] == c.mem
    ensures Release(b.trimask) == Release(old(b.trimask))
    ensures b.outState[0] & 0xfe == old(b.outState[0]) & 0xfe && b.outState[2..] == old(b.outState[2..])
    ensures n > 0 ==> !ClockOn(b.outState[0])
  {
    ghost var t0, o0, m0 := b.trimask, b.outState[..], mem[..];
    ss := Passes(b, mem, n);
    RunFrame(t0, o0, m0, ss);
  }

  /** `RunMask`, `RunOutputs` and `RunClockLow` together. */
  lemma RunFrame(t: bv32, out: seq<bv8>, mem: seq<bv8>, ss: seq<Polls>)
    requires |out| == NPorts && |mem| == MemSize && forall k :: 0 <= k < |ss| ==> ss[k].Full()
    ensures var c := RunF(t, out, mem, ss);
      && Release(c.tri) == Release(t)
      && c.out[0] & 0xfe == out[0] & 0xfe && c.out[2..] == out[2..]
      && (ss != [] ==> !ClockOn(c.out[0]))
  {
    RunMask(t, out, mem, ss);
    RunOutputs(t, out, mem, ss);
    if ss != [] {
      RunClockLow(t, out, mem, ss);
    }
  }

  /** The `n` passes of `main`'s loop, `ss[i]` holding the samples of pass
      `i`: memory, mask, outputs and log end as `RunF` says. */
  method Passes(b: Board, mem: array<bv8>, n: nat) returns (ghost ss: seq<Polls>)
    requires b.Valid() && mem.Length == MemSize && mem != b.outState && mem != b.inState
    modifies b, b.outState, b.inState, mem
    ensures b.Valid() && |ss| == n && forall k :: 0 <= k < n ==> ss[k].Full()
    ensures var c := RunF(old(b.trimask), old(b.outState[..]), old(mem[..]), ss);
      b.log == old(b.log) + c.ops && b.trimask == c.tri && b.outState[..] == c.out && mem[..] == c.mem
  {
    ghost var t0, o0, m0, log0 := b.trimask, b.outState[..], mem[..], b.log;
    ss := [];
    var i := 0;
    while i < n
      invariant 0 <= i <= n && b.Valid() && |ss| == i && forall k :: 0 <= k < i ==> ss[k].Full()
      invariant var c := RunF(t0, o0, m0, ss);
        b.log == log0 + c.ops && b.trimask == c.tri && b.outState[..] == c.out && mem[..] == c.mem
    {
      ghost var c := RunF(t0, o0, m0, ss);
      ghost var s := Iteration(b, mem);
      RunSnoc(t0, o0, m0, ss, s);
      SeqAssoc(log0, c.ops, PassF(c.tri, c.out, c.mem, s).ops);
      FullSnoc(ss, s);
      ss := ss + [s];
      i := i + 1;
    }
  }

  lemma SeqAssoc(a: seq<Op>, b: seq<Op>, c: seq<Op>)
    ensures a + b + c == a + (b + c)
  {
  }

  lemma Assoc4(a: seq<Op>, b: seq<Op>, c: seq<Op>, d: seq<Op>, e: seq<Op>)
    ensures a + b + c + d + e == a + (b + c + d + e)
  {
  }
}
