/** host_software/65c02_test.c: the host plays the memory of a 65C02.
    Each bus cycle it samples the address (ports C and D) and the status
    pins (port E: #ml, sync, r/#w, #vp), then either drives the data bus
    (port B) from `mem` on a read or stores what the CPU drives there on
    a write. */
module Cpu65c02 {
  import opened Busyboard
  import opened CpuBus

  /** `enum cpu_status`. */
  const Ml: bv8 := 0x01
  const Sync: bv8 := 0x02
  const WrBit: bv8 := 0x04
  const Vp: bv8 := 0x08

  /** Where `main` loads the program (`load_hex(0x800, ...)`). */
  const LoadBase: nat := 0x800

  /** `in_state[4] ^ 0xd`: the three active-low pins inverted, sync kept. */
  function Status(p: seq<bv8>): bv8
    requires |p| == NPorts
  {
    p[4] ^ 0x0d
  }

  /** `status & STATUS_WR`: the write status is set exactly when the
      r/#w pin is low, the other inverted pins likewise, and sync is the
      pin itself. */
  lemma StatusPins(p: seq<bv8>)
    requires |p| == NPorts
    ensures Status(p) & WrBit != 0 <==> p[4] & 4 == 0
    ensures Status(p) & Ml != 0 <==> p[4] & 1 == 0
    ensures Status(p) & Vp != 0 <==> p[4] & 8 == 0
    ensures Status(p) & Sync == p[4] & 2
  {
  }

  predicate Writing(p: seq<bv8>)
    requires |p| == NPorts
  {
    Status(p) & WrBit != 0
  }

  /** `cpu_emulate_cyc`, given the address sample `p1`, the status sample
      `p2` and, on a write, the data sample `p3`. */
  function EmulateF(t: bv32, out: seq<bv8>, mem: seq<bv8>, p1: seq<bv8>, p2: seq<bv8>, p3: seq<bv8>): (c: Cycle)
    requires |out| == NPorts && |mem| == MemSize && |p1| == NPorts && |p2| == NPorts && |p3| == NPorts
    ensures |c.out| == NPorts && |c.mem| == MemSize
  {
    AddrBytes(p1);
    var addr := Addr(p1);
    var polls := [Sampled(p1), Wrote(t, out), Sampled(p2), Wrote(t, out)];
    if !Writing(p2) then
      var o := out[1 := mem[addr]];
      Cycle(polls + [Wrote(Drive(t), o)], Drive(t), o, mem)
    else
      var t' := Release(t);
      Cycle(polls + [Wrote(t', out), Sampled(p3), Wrote(t', out), Wrote(t', out)], t', out, mem[addr := p3[1]])
  }

  lemma ReadShape(t: bv32, out: seq<bv8>, mem: seq<bv8>, p1: seq<bv8>, p2: seq<bv8>, p3: seq<bv8>)
    requires |out| == NPorts && |mem| == MemSize && |p1| == NPorts && |p2| == NPorts && |p3| == NPorts
    requires !Writing(p2)
    ensures var c := EmulateF(t, out, mem, p1, p2, p3);
      var o := out[1 := mem[Addr(p1)]];
      c == Cycle([Sampled(p1), Wrote(t, out), Sampled(p2), Wrote(t, out)] + [Wrote(Drive(t), o)], Drive(t), o, mem)
  {
  }

  lemma WriteShape(t: bv32, out: seq<bv8>, mem: seq<bv8>, p1: seq<bv8>, p2: seq<bv8>, p3: seq<bv8>)
    requires |out| == NPorts && |mem| == MemSize && |p1| == NPorts && |p2| == NPorts && |p3| == NPorts
    requires Writing(p2)
    ensures var c := EmulateF(t, out, mem, p1, p2, p3);
      var w := Wrote(Release(t), out);
      c == Cycle([Sampled(p1), Wrote(t, out), Sampled(p2), Wrote(t, out)] + [w, Sampled(p3), w, w],
                 Release(t), out, mem[Addr(p1) := p3[1]])
  {
  }

  /** A read cycle (r/#w high): port B driven with the addressed byte, no
      other port changed, memory untouched. */
  lemma ReadCycle(t: bv32, out: seq<bv8>, mem: seq<bv8>, p1: seq<bv8>, p2: seq<bv8>, p3: seq<bv8>)
    requires |out| == NPorts && |mem| == MemSize && |p1| == NPorts && |p2| == NPorts && |p3| == NPorts
    requires p2[4] & 4 != 0
    ensures var c := EmulateF(t, out, mem, p1, p2, p3);
      c.mem == mem && DrivesData(c.tri) && Release(c.tri) == Release(t)
      && c.out[1] == mem[Addr(p1)] && c.out[0] == out[0] && c.out[2..] == out[2..]
      && c.ops[|c.ops| - 1] == Wrote(c.tri, c.out)
  {
    StatusPins(p2);
    ReadShape(t, out, mem, p1, p2, p3);
    DriveBits(t);
    var c := EmulateF(t, out, mem, p1, p2, p3);
    assert c.out[2..] == out[2..];
  }

  /** A write cycle (r/#w low): port B released in every snapshot after the
      status sample, no port changed, and exactly the addressed cell takes
      the byte the CPU drives on port B. */
  lemma WriteCycle(t: bv32, out: seq<bv8>, mem: seq<bv8>, p1: seq<bv8>, p2: seq<bv8>, p3: seq<bv8>)
    requires |out| == NPorts && |mem| == MemSize && |p1| == NPorts && |p2| == NPorts && |p3| == NPorts
    requires p2[4] & 4 == 0
    ensures var c := EmulateF(t, out, mem, p1, p2, p3);
      !DrivesData(c.tri) && Release(c.tri) == Release(t) && c.out == out
      && c.mem[Addr(p1)] == p3[1]
      && (forall a :: 0 <= a < MemSize && a != Addr(p1) ==> c.mem[a] == mem[a])
      && c.ops[4..] == [Wrote(c.tri, out), Sampled(p3), Wrote(c.tri, out), Wrote(c.tri, out)]
  {
    StatusPins(p2);
    WriteShape(t, out, mem, p1, p2, p3);
    ReleaseBits(t);
    AddrBytes(p1);
  }

  /** A write followed by a read of the same address drives the written
      byte back onto the data bus. */
  lemma WriteThenRead(t: bv32, out: seq<bv8>, mem: seq<bv8>, p1: seq<bv8>, p2: seq<bv8>, p3: seq<bv8>,
                      q1: seq<bv8>, q2: seq<bv8>, q3: seq<bv8>)
    requires |out| == NPorts && |mem| == MemSize && |p1| == NPorts && |p2| == NPorts && |p3| == NPorts
    requires |q1| == NPorts && |q2| == NPorts && |q3| == NPorts
    requires p2[4] & 4 == 0 && q2[4] & 4 != 0 && Addr(q1) == Addr(p1)
    ensures var c1 := EmulateF(t, out, mem, p1, p2, p3);
      var c2 := EmulateF(c1.tri, c1.out, c1.mem, q1, q2, q3);
      c2.out[1] == p3[1] && DrivesData(c2.tri)
  {
    WriteCycle(t, out, mem, p1, p2, p3);
    var c1 := EmulateF(t, out, mem, p1, p2, p3);
    ReadCycle(c1.tri, c1.out, c1.mem, q1, q2, q3);
  }

  /** `cpu_get_status`. */
  method GetStatus(b: Board) returns (s: bv8, ghost p: seq<bv8>)
    requires b.Valid()
    modifies b, b.inState
    ensures b.Valid() && b.trimask == old(b.trimask) && b.outState[..] == old(b.outState[..])
    ensures |p| == NPorts && s == Status(p)
    ensures b.log == old(b.log) + [Sampled(p), Wrote(b.trimask, b.outState[..])]
  {
    p := Poll(b);
    s := b.inState[4] ^ 0x0d;
  }

  /** `cpu_emulate_cyc` over the host's memory `mem`; the samples it takes
      are returned as ghosts (`p3` is only taken on a write). */
  method EmulateCyc(b: Board, mem: array<bv8>) returns (ghost p1: seq<bv8>, ghost p2: seq<bv8>, ghost p3: seq<bv8>)
    requires b.Valid() && mem.Length == MemSize && mem != b.outState && mem != b.inState
    modifies b, b.outState, b.inState, mem
    ensures b.Valid() && |p1| == NPorts && |p2| == NPorts && |p3| == NPorts
    ensures b.outState[0] == old(b.outState[0])
    ensures var c := EmulateF(old(b.trimask), old(b.outState[..]), old(mem[..]), p1, p2, p3);
      b.log == old(b.log) + c.ops && b.trimask == c.tri && b.outState[..] == c.out && mem[..] == c.mem
  {
    ghost var t0, o0, m0, log0 := b.trimask, b.outState[..], mem[..], b.log;
    var addr;
    addr, p1 := GetAddr(b);
    var s;
    s, p2 := GetStatus(b);
    ghost var polls := [Sampled(p1), Wrote(t0, o0), Sampled(p2), Wrote(t0, o0)];
    assert b.log == log0 + polls;
    ghost var log1 := b.log;
    if s & WrBit == 0 {
      ServeRead(b, mem, addr);
      p3 := p2;
      ReadShape(t0, o0, m0, p1, p2, p3);
    } else {
      b.trimask := Release(b.trimask);
      Snapshot(b);
      // Always taken: this is the branch in which the write bit is set.
      if s & WrBit != 0 {
        p3 := ServeWrite(b, mem, addr);
      }
      ghost var w := Wrote(b.trimask, b.outState[..]);
      assert b.log == log1 + [w] + [Sampled(p3), w, w];
      assert [w] + [Sampled(p3), w, w] == [w, Sampled(p3), w, w];
      WriteShape(t0, o0, m0, p1, p2, p3);
    }
    SeqAssoc(log0, polls, b.log[|log1|..]);
  }

  /** The read half of `cpu_emulate_cyc`: drive port B with the addressed
      byte and write it out. */
  method ServeRead(b: Board, mem: array<bv8>, addr: nat)
    requires b.Valid() && mem.Length == MemSize && mem != b.outState && mem != b.inState && addr < MemSize
    modifies b, b.outState
    ensures b.Valid() && b.trimask == Drive(old(b.trimask))
    ensures b.outState[..] == old(b.outState[..])[1 := mem[addr]]
    ensures b.log == old(b.log) + [Wrote(b.trimask, b.outState[..])]
  {
    b.outState[1] := mem[addr];
    b.trimask := Drive(b.trimask);
    Snapshot(b);
  }

  /** The write half after port B is released: sample it, store it at
      `addr`, write the outputs out. */
  method ServeWrite(b: Board, mem: array<bv8>, addr: nat) returns (ghost p3: seq<bv8>)
    requires b.Valid() && mem.Length == MemSize && mem != b.outState && mem != b.inState && addr < MemSize
    modifies b, b.inState, mem
    ensures b.Valid() && b.trimask == old(b.trimask) && b.outState[..] == old(b.outState[..])
    ensures |p3| == NPorts && mem[..] == old(mem[..])[addr := p3[1]]
    ensures var w := Wrote(b.trimask, b.outState[..]);
      b.log == old(b.log) + [Sampled(p3), w, w]
  {
    p3 := Poll(b);
    var val := b.inState[1];
    mem[addr] := val;
    Snapshot(b);
  }

  lemma SeqAssoc(a: seq<Op>, b: seq<Op>, c: seq<Op>)
    ensures a + b + c == a + (b + c)
  {
  }

  // ---------------------------------------------------------------------
  // `main`: the reset vector and the clock

  /** The little-endian vector the 65C02 fetches its first program counter
      from at reset, in cells 0xfffc and 0xfffd. */
  function ResetVector(m: seq<bv8>): nat
    requires |m| == MemSize
  {
    m[0xfffd] as nat * 256 + m[0xfffc] as nat
  }

  /** The two stores `main` makes before starting the CPU. */
  method SetResetVector(mem: array<bv8>)
    requires mem.Length == MemSize
    modifies mem
    ensures mem[..] == old(mem[..])[0xfffc := 0x00][0xfffd := 0x08]
  {
    mem[0xfffc] := 0x00;
    mem[0xfffd] := 0x08;
  }

  /** After those stores the CPU starts where the program was loaded, and
      every other cell is as it was. */
  lemma ResetVectorIsLoadBase(m: seq<bv8>)
    requires |m| == MemSize
    ensures ResetVector(m[0xfffc := 0x00][0xfffd := 0x08]) == LoadBase
    ensures forall a :: 0 <= a < MemSize && a != 0xfffc && a != 0xfffd ==> m[0xfffc := 0x00][0xfffd := 0x08][a] == m[a]
  {
  }

  /** `i & 1` for a non-negative `i`. */
  predicate Odd(i: nat) { i % 2 == 1 }

  /** The clock step of iteration `i` of `main`'s loop. */
  method ClockStep(b: Board, i: nat)
    requires b.Valid()
    modifies b, b.outState
    ensures b.Valid() && b.trimask == old(b.trimask)
    ensures b.outState[..] == (if Odd(i) then SetClkF(b.trimask, old(b.outState[..])).out
                               else ClearClkF(b.trimask, old(b.outState[..])).out)
    ensures b.log == old(b.log) + [Wrote(b.trimask, b.outState[..])]
    ensures (ClockOn(b.outState[0]) <==> Odd(i)) && b.outState[0] & 0xfe == old(b.outState[0]) & 0xfe
  {
    ClockLevel(b.outState[0], Odd(i));
    PortAOnly(b.trimask, b.outState[..], b.outState[0] | 1);
    PortAOnly(b.trimask, b.outState[..], b.outState[0] & 0xfe);
    if i % 2 == 1 {
      SetClk(b);
    } else {
      ClearClk(b);
    }
  }

  lemma ClockLevel(a: bv8, odd: bool)
    ensures var a' := if odd then a | 1 else a & 0xfe;
      (ClockOn(a') <==> odd) && a' & 0xfe == a & 0xfe
  {
    SetClkBits(a);
    ClearClkBits(a);
  }

  /** Pass `i` of `main`'s loop from mask `t`, outputs `out` and memory
      `mem`, given its samples: the clock step, a bus cycle and the two
      samples `print_bus_status` takes. */
  function PassF(i: nat, t: bv32, out: seq<bv8>, mem: seq<bv8>, s: Polls): (c: Cycle)
    requires |out| == NPorts && |mem| == MemSize && s.Full()
    ensures |c.out| == NPorts && |c.mem| == MemSize
  {
    var clk := if Odd(i) then SetClkF(t, out) else ClearClkF(t, out);
    var e := EmulateF(t, clk.out, mem, s.p1, s.p2, s.p3);
    Cycle(clk.ops + e.ops + [Sampled(s.q1), Wrote(e.tri, e.out), Sampled(s.q2), Wrote(e.tri, e.out)],
          e.tri, e.out, e.mem)
  }

  /** Whatever the cycle, port A and ports C onwards keep their values,
      and only the data-bus direction bit of the mask changes. */
  lemma CycleKeepsPorts(t: bv32, out: seq<bv8>, mem: seq<bv8>, p1: seq<bv8>, p2: seq<bv8>, p3: seq<bv8>)
    requires |out| == NPorts && |mem| == MemSize && |p1| == NPorts && |p2| == NPorts && |p3| == NPorts
    ensures var c := EmulateF(t, out, mem, p1, p2, p3);
      c.out[0] == out[0] && c.out[2..] == out[2..] && Release(c.tri) == Release(t)
  {
    if p2[4] & 4 != 0 {
      ReadCycle(t, out, mem, p1, p2, p3);
    } else {
      WriteCycle(t, out, mem, p1, p2, p3);
    }
  }

  /** The cycle of pass `i` runs with the clock high exactly when `i` is
      odd, and the pass leaves port A as its clock step wrote it. */
  lemma PassClock(i: nat, t: bv32, out: seq<bv8>, mem: seq<bv8>, s: Polls)
    requires |out| == NPorts && |mem| == MemSize && s.Full()
    ensures var a := PassF(i, t, out, mem, s).out[0];
      (ClockOn(a) <==> Odd(i)) && a & 0xfe == out[0] & 0xfe
  {
    var clk := if Odd(i) then SetClkF(t, out) else ClearClkF(t, out);
    HelpersTouchOneBit(t, out);
    CycleKeepsPorts(t, clk.out, mem, s.p1, s.p2, s.p3);
  }

  /** A pass changes only the data-bus direction bit of the mask, and of
      the outputs only the clock bit of port A and port B. */
  lemma PassPorts(i: nat, t: bv32, out: seq<bv8>, mem: seq<bv8>, s: Polls)
    requires |out| == NPorts && |mem| == MemSize && s.Full()
    ensures var c := PassF(i, t, out, mem, s);
      Release(c.tri) == Release(t) && c.out[2..] == out[2..]
  {
    var clk := if Odd(i) then SetClkF(t, out) else ClearClkF(t, out);
    HelpersTouchOneBit(t, out);
    TailFrom1(clk.out, out);
    CycleKeepsPorts(t, clk.out, mem, s.p1, s.p2, s.p3);
  }

  /** The one memory cell a pass may change is the cycle's address, and
      only on a write. */
  lemma PassMemory(i: nat, t: bv32, out: seq<bv8>, mem: seq<bv8>, s: Polls)
    requires |out| == NPorts && |mem| == MemSize && s.Full()
    ensures var c := PassF(i, t, out, mem, s);
      && (forall a :: 0 <= a < MemSize && a != Addr(s.p1) ==> c.mem[a] == mem[a])
      && (!Writing(s.p2) ==> c.mem == mem)
  {
  }

  /** `main`'s loop over the samples of its passes, pass `k` taking
      `ss[k]`. */
  function RunF(t: bv32, out: seq<bv8>, mem: seq<bv8>, ss: seq<Polls>): (c: Cycle)
    requires |out| == NPorts && |mem| == MemSize && forall k :: 0 <= k < |ss| ==> ss[k].Full()
    ensures |c.out| == NPorts && |c.mem| == MemSize
    decreases |ss|
  {
    if ss == [] then Cycle([], t, out, mem)
    else
      var c := RunF(t, out, mem, ss[..|ss| - 1]);
      var d := PassF(|ss| - 1, c.tri, c.out, c.mem, ss[|ss| - 1]);
      Cycle(c.ops + d.ops, d.tri, d.out, d.mem)
  }

  /** One more pass appended to the loop. */
  lemma RunSnoc(t: bv32, out: seq<bv8>, mem: seq<bv8>, ss: seq<Polls>, s: Polls)
    requires |out| == NPorts && |mem| == MemSize && forall k :: 0 <= k < |ss| ==> ss[k].Full()
    requires s.Full()
    ensures var c := RunF(t, out, mem, ss);
      var d := PassF(|ss|, c.tri, c.out, c.mem, s);
      var r := RunF(t, out, mem, ss + [s]);
      r.ops == c.ops + d.ops && r.tri == d.tri && r.out == d.out && r.mem == d.mem
  {
    assert (ss + [s])[..|ss|] == ss;
  }

  /** Over the whole loop only the data-bus direction bit of the mask
      changes. */
  lemma {:induction false} RunMask(t: bv32, out: seq<bv8>, mem: seq<bv8>, ss: seq<Polls>)
    requires |out| == NPorts && |mem| == MemSize && forall k :: 0 <= k < |ss| ==> ss[k].Full()
    ensures Release(RunF(t, out, mem, ss).tri) == Release(t)
    decreases |ss|
  {
    if ss != [] {
      var init := ss[..|ss| - 1];
      assert forall k :: 0 <= k < |init| ==> init[k] == ss[k];
      RunMask(t, out, mem, init);
      var c := RunF(t, out, mem, init);
      PassPorts(|ss| - 1, c.tri, c.out, c.mem, ss[|ss| - 1]);
    }
  }

  /** Over the whole loop only the clock bit of port A and port B change
      among the outputs, and the clock is left as the last pass set it. */
  lemma {:induction false} RunOutputs(t: bv32, out: seq<bv8>, mem: seq<bv8>, ss: seq<Polls>)
    requires |out| == NPorts && |mem| == MemSize && forall k :: 0 <= k < |ss| ==> ss[k].Full()
    ensures var o := RunF(t, out, mem, ss).out;
      o[0] & 0xfe == out[0] & 0xfe && o[2..] == out[2..]
      && (ss != [] ==> (ClockOn(o[0]) <==> Odd(|ss| - 1)))
    decreases |ss|
  {
    if ss != [] {
      var init := ss[..|ss| - 1];
      assert forall k :: 0 <= k < |init| ==> init[k] == ss[k];
      RunOutputs(t, out, mem, init);
      var c := RunF(t, out, mem, init);
      PassClock(|ss| - 1, c.tri, c.out, c.mem, ss[|ss| - 1]);
      PassPorts(|ss| - 1, c.tri, c.out, c.mem, ss[|ss| - 1]);
    }
  }

  /** A memory cell that no write cycle of the loop addresses keeps its
      value. */
  lemma {:induction false} RunMemory(t: bv32, out: seq<bv8>, mem: seq<bv8>, ss: seq<Polls>, a: nat)
    requires |out| == NPorts && |mem| == MemSize && forall k :: 0 <= k < |ss| ==> ss[k].Full()
    requires a < MemSize && forall k :: 0 <= k < |ss| ==> ss[k].Full() && (Writing(ss[k].p2) ==> Addr(ss[k].p1) != a)
    ensures RunF(t, out, mem, ss).mem[a] == mem[a]
    decreases |ss|
  {
    if ss != [] {
      var init := ss[..|ss| - 1];
      assert forall k :: 0 <= k < |init| ==> init[k] == ss[k];
      RunMemory(t, out, mem, init, a);
      var c := RunF(t, out, mem, init);
      PassMemory(|ss| - 1, c.tri, c.out, c.mem, ss[|ss| - 1]);
      assert Writing(ss[|ss| - 1].p2) ==> Addr(ss[|ss| - 1].p1) != a;
    }
  }

  /** `main`'s loop, `n` iterations, `ss[i]` holding the samples of pass
      `i`: memory, mask, outputs and log end as `RunF` says. `clocks[i]`
      is port A as written by the clock step of iteration `i`: high
      exactly on odd iterations. */
  method Run(b: Board, mem: array<bv8>, n: nat) returns (ghost clocks: seq<bv8>, ghost ss: seq<Polls>)
    requires b.Valid() && mem.Length == MemSize && mem != b.outState && mem != b.inState
    modifies b, b.outState, b.inState, mem
    ensures b.Valid() && |clocks| == n && |ss| == n && forall k :: 0 <= k < n ==> ss[k].Full()
    ensures var c := RunF(old(b.trimask), old(b.outState[..]), old(mem[..]), ss);
      b.log == old(b.log) + c.ops && b.trimask == c.tri && b.outState[..] == c.out && mem[..] == c.mem
    ensures forall i :: 0 <= i < n ==> (ClockOn(clocks[i]) <==> Odd(i))
    ensures forall i :: 0 <= i < n ==> clocks[i] & 0xfe == old(b.outState[0]) & 0xfe
    ensures n > 0 ==> b.outState[0] == clocks[n - 1]
  {
    ghost var t0, o0, m0, log0 := b.trimask, b.outState[..], mem[..], b.log;
    ss := [];
    var i := 0;
    while i < n
      invariant 0 <= i <= n && b.Valid() && |ss| == i
      invariant forall k :: 0 <= k < i ==> ss[k].Full()
      invariant var c := RunF(t0, o0, m0, ss);
        b.log == log0 + c.ops && b.trimask == c.tri && b.outState[..] == c.out && mem[..] == c.mem
    {
      ghost var c := RunF(t0, o0, m0, ss);
      ghost var s := Iteration(b, mem, i);
      RunSnoc(t0, o0, m0, ss, s);
      SeqAssoc(log0, c.ops, PassF(i, c.tri, c.out, c.mem, s).ops);
      FullSnoc(ss, s);
      ss := ss + [s];
      i := i + 1;
    }
    clocks := Clocks(t0, o0, m0, ss);
  }

  /** Port A after each pass of the loop. */
  ghost function Clocks(t: bv32, out: seq<bv8>, mem: seq<bv8>, ss: seq<Polls>): (cs: seq<bv8>)
    requires |out| == NPorts && |mem| == MemSize && forall j :: 0 <= j < |ss| ==> ss[j].Full()
    ensures |cs| == |ss|
    ensures forall k :: 0 <= k < |ss| ==> (ClockOn(cs[k]) <==> Odd(k)) && cs[k] & 0xfe == out[0] & 0xfe
    ensures ss != [] ==> cs[|ss| - 1] == RunF(t, out, mem, ss).out[0]
  {
    RunClocks(t, out, mem, ss);
    assert ss != [] ==> ss[..|ss|] == ss;
    seq(|ss|, k requires 0 <= k < |ss| => ClockAt(t, out, mem, ss, k))
  }

  /** Port A after pass `k` of the loop. */
  ghost function ClockAt(t: bv32, out: seq<bv8>, mem: seq<bv8>, ss: seq<Polls>, k: nat): bv8
    requires |out| == NPorts && |mem| == MemSize && forall j :: 0 <= j < |ss| ==> ss[j].Full()
    requires k < |ss|
  {
    var p := ss[..k + 1];
    assert forall j :: 0 <= j < |p| ==> p[j] == ss[j];
    RunF(t, out, mem, p).out[0]
  }

  /** After pass `k` the clock is high exactly when `k` is odd, and the
      other bits of port A are as at the start. */
  lemma RunClocks(t: bv32, out: seq<bv8>, mem: seq<bv8>, ss: seq<Polls>)
    requires |out| == NPorts && |mem| == MemSize && forall j :: 0 <= j < |ss| ==> ss[j].Full()
    ensures forall k :: 0 <= k < |ss| ==>
      (ClockOn(ClockAt(t, out, mem, ss, k)) <==> Odd(k)) && ClockAt(t, out, mem, ss, k) & 0xfe == out[0] & 0xfe
  {
    forall k | 0 <= k < |ss|
      ensures (ClockOn(ClockAt(t, out, mem, ss, k)) <==> Odd(k)) && ClockAt(t, out, mem, ss, k) & 0xfe == out[0] & 0xfe
    {
      var p := ss[..k + 1];
      assert forall j :: 0 <= j < |p| ==> p[j] == ss[j];
      RunOutputs(t, out, mem, p);
    }
  }

  /** Pass `i` of `main`'s loop: memory, mask, outputs and the log end as
      `PassF` says, for the samples `s` the pass takes. */
  method Iteration(b: Board, mem: array<bv8>, i: nat) returns (ghost s: Polls)
    requires b.Valid() && mem.Length == MemSize && mem != b.outState && mem != b.inState
    modifies b, b.outState, b.inState, mem
    ensures b.Valid() && s.Full()
    ensures var c := PassF(i, old(b.trimask), old(b.outState[..]), old(mem[..]), s);
      b.log == old(b.log) + c.ops && b.trimask == c.tri && b.outState[..] == c.out && mem[..] == c.mem
  {
    ghost var t0, o0, m0, log0 := b.trimask, b.outState[..], mem[..], b.log;
    ClockStep(b, i);
    ghost var log1 := b.log;
    ghost var p1, p2, p3 := EmulateCyc(b, mem);
    ghost var log2 := b.log;
    var addr, st;
    ghost var q1, q2;
    addr, q1 := GetAddr(b);
    st, q2 := GetStatus(b);
    s := Polls(p1, p2, p3, q1, q2);
    ghost var e := EmulateF(t0, b.outState[..], m0, p1, p2, p3);
    ghost var tail := [Sampled(q1), Wrote(b.trimask, b.outState[..]), Sampled(q2), Wrote(b.trimask, b.outState[..])];
    assert b.log == log2 + tail;
    Assoc3(log0, log1[|log0|..], log2[|log1|..], tail);
  }

  lemma Assoc3(a: seq<Op>, b: seq<Op>, c: seq<Op>, d: seq<Op>)
    ensures a + b + c + d == a + (b + c + d)
  {
  }
}
