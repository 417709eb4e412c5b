/** host_software/mem_test.c and host_software/28c256_test.c: a parallel
    SRAM and a 28C256 EEPROM on the board. Port A carries the three
    active-low controls (bit 0 #ce, bit 1 #oe, bit 2 #we), port B the
    data, ports C, D and E the address bytes from low to high.

    The chip is modelled as a map from addresses to bytes that each
    snapshot updates as the real part would: a write happens while chip
    enable and write enable are both low and the host drives port B. */
module Memories {
  import opened Busyboard

  /** Port A at rest: #ce, #oe and #we all high. */
  const IdleA: bv8 := 7
  /** Port A during an SRAM write: #ce and #we low. */
  const WriteA: bv8 := 2
  /** Port A during a read: #ce and #oe low. */
  const ReadA: bv8 := 4
  /** Port A while the EEPROM's write pulse is set up: #ce low. */
  const SelectA: bv8 := 6
  /** Every port driven but B. */
  const IdleMask: bv32 := 0x3d
  /** Every port driven, B included. */
  const WriteMask: bv32 := 0x3f

  /** The largest `unsigned` plus one. */
  const UintRange: nat := 0x1_0000_0000

  /** `addr & 0xff`, `(addr >> 8) & 0xff` and `(addr >> 16) & 0xff` for an
      `unsigned` address: masking and shifting a non-negative number are
      taking a remainder and dividing. */
  function AddrLo(addr: nat): bv8 { (addr % 256) as bv8 }
  function AddrMid(addr: nat): bv8 { (addr / 256 % 256) as bv8 }
  function AddrHi(addr: nat): bv8 { (addr / 65536 % 256) as bv8 }

  /** The three address ports set from `addr`. */
  function WithAddr(out: seq<bv8>, addr: nat): (o: seq<bv8>)
    requires |out| == NPorts
    ensures |o| == NPorts
  {
    out[2 := AddrLo(addr)][3 := AddrMid(addr)][4 := AddrHi(addr)]
  }

  /** The address the chip sees in a snapshot. */
  function ChipAddr(o: seq<bv8>): nat
    requires |o| == NPorts
  {
    o[4] as nat * 65536 + o[3] as nat * 256 + o[2] as nat
  }

  /** The 24-bit address `addr` puts on the bus: its low three bytes. */
  function Addr24(addr: nat): nat
  {
    addr % 0x100_0000
  }

  lemma ByteBack(n: int)
    requires 0 <= n < 256
    ensures (n as bv8) as int == n
  {
    assert n % 256 == n;
  }

  lemma Digits(addr: nat)
    ensures addr % 0x100_0000 == (addr / 65536 % 256) * 65536 + (addr / 256 % 256) * 256 + addr % 256
  {
    var a, b, c, d := addr % 256, addr / 256 % 256, addr / 65536 % 256, addr / 0x100_0000;
    assert addr == ((d * 256 + c) * 256 + b) * 256 + a;
  }

  lemma AddrSplit(addr: nat)
    ensures Addr24(addr) == AddrHi(addr) as nat * 65536 + AddrMid(addr) as nat * 256 + AddrLo(addr) as nat
  {
    ByteBack(addr % 256);
    ByteBack(addr / 256 % 256);
    ByteBack(addr / 65536 % 256);
    Digits(addr);
  }

  /** The three address bytes spell out the low 24 bits of `addr`. */
  lemma WithAddrSpells(out: seq<bv8>, addr: nat)
    requires |out| == NPorts
    ensures ChipAddr(WithAddr(out, addr)) == Addr24(addr)
  {
    AddrSplit(addr);
  }

  // ---------------------------------------------------------------------
  // The chip

  predicate Low(a: bv8, bit: bv8) { a & bit == 0 }

  /** The chip stores port B in this snapshot. */
  predicate Writes(t: bv32, o: seq<bv8>)
    requires |o| == NPorts
  {
    Low(o[0], 1) && Low(o[0], 4) && t & 2 == 2
  }

  /** The chip drives port B in this snapshot, and the host listens. */
  predicate Reads(t: bv32, o: seq<bv8>)
    requires |o| == NPorts
  {
    Low(o[0], 1) && Low(o[0], 2) && !Low(o[0], 4) && t & 2 == 0
  }

  /** One entry of the log applied to the chip's contents. */
  function Apply(m: map<nat, bv8>, op: Op): map<nat, bv8>
  {
    match op
    case Wrote(t, o) => if |o| == NPorts && Writes(t, o) then m[ChipAddr(o) := o[1]] else m
    case _ => m
  }

  function ApplyAll(m: map<nat, bv8>, ops: seq<Op>): map<nat, bv8>
    decreases |ops|
  {
    if ops == [] then m else ApplyAll(Apply(m, ops[0]), ops[1..])
  }

  // ---------------------------------------------------------------------
  // `sram_init` (and the identical `eeprom_init`), `sram_write`,
  // `eeprom_write`, `sram_read` (and the identical `eeprom_read`)

  function InitF(out: seq<bv8>): (r: After)
    requires |out| == NPorts
    ensures |r.out| == NPorts
  {
    var o := out[0 := IdleA];
    After([Wrote(IdleMask, o)], o)
  }

  function SramWriteF(out: seq<bv8>, addr: nat, data: bv8): (r: After)
    requires |out| == NPorts
    ensures |r.out| == NPorts
  {
    var o := WithAddr(out[0 := WriteA][1 := data], addr);
    var i := InitF(o);
    After([Wrote(WriteMask, o)] + i.ops, i.out)
  }

  function EepromWriteF(out: seq<bv8>, addr: nat, data: bv8): (r: After)
    requires |out| == NPorts
    ensures |r.out| == NPorts
  {
    var o1 := WithAddr(out[0 := SelectA][1 := data], addr);
    var o2 := o1[0 := WriteA];
    var o3 := o2[0 := SelectA];
    var i := InitF(o3);
    After([Wrote(WriteMask, o1), Wrote(WriteMask, o2), Wrote(WriteMask, o3)] + i.ops, i.out)
  }

  /** `p` is the sample `busyboard_in` takes. */
  function ReadF(out: seq<bv8>, addr: nat, p: seq<bv8>): (r: After)
    requires |out| == NPorts
    ensures |r.out| == NPorts
  {
    var o := WithAddr(out[0 := ReadA], addr);
    var i := InitF(o);
    After([Wrote(IdleMask, o), Sampled(p), Wrote(IdleMask, o)] + i.ops, i.out)
  }

  /** Port A in every snapshot of a log. */
  function PortAs(ops: seq<Op>): seq<bv8>
  {
    seq(|ops|, k requires 0 <= k < |ops| => if ops[k].Wrote? && |ops[k].out| > 0 then ops[k].out[0] else 0)
  }

  /** Every snapshot of every operation ends back at rest, and each call
      leaves the address it was given on ports C to E. */
  lemma EndsAtRest(out: seq<bv8>, addr: nat, data: bv8, p: seq<bv8>)
    requires |out| == NPorts
    ensures InitF(out).out[0] == IdleA
    ensures var r := SramWriteF(out, addr, data);
      r.out[0] == IdleA && r.out[1] == data && ChipAddr(r.out) == Addr24(addr) && r.ops[|r.ops| - 1].trimask == IdleMask
    ensures var r := EepromWriteF(out, addr, data);
      r.out[0] == IdleA && r.out[1] == data && ChipAddr(r.out) == Addr24(addr) && r.ops[|r.ops| - 1].trimask == IdleMask
    ensures var r := ReadF(out, addr, p);
      r.out[0] == IdleA && ChipAddr(r.out) == Addr24(addr) && r.ops[|r.ops| - 1].trimask == IdleMask
  {
    WithAddrSpells(out[0 := WriteA][1 := data], addr);
    WithAddrSpells(out[0 := SelectA][1 := data], addr);
    WithAddrSpells(out[0 := ReadA], addr);
  }

  /** The EEPROM write: port A goes 6, 2, 6, 7, with port B driven in the
      first three snapshots and released in the last. */
  lemma EepromWriteSequence(out: seq<bv8>, addr: nat, data: bv8)
    requires |out| == NPorts
    ensures var ops := EepromWriteF(out, addr, data).ops;
      PortAs(ops) == [SelectA, WriteA, SelectA, IdleA]
      && |ops| == 4 && ops[0].trimask == WriteMask && ops[1].trimask == WriteMask
      && ops[2].trimask == WriteMask && ops[3].trimask == IdleMask
  {
  }

  lemma OneWrite(m: map<nat, bv8>, a: Op)
    ensures ApplyAll(m, [a]) == Apply(m, a)
  {
    assert [a][1..] == [];
  }

  lemma {:induction false} ApplyAppend(m: map<nat, bv8>, xs: seq<Op>, ys: seq<Op>)
    ensures ApplyAll(m, xs + ys) == ApplyAll(ApplyAll(m, xs), ys)
    decreases |xs|
  {
    if xs == [] {
      assert xs + ys == ys;
    } else {
      assert (xs + ys)[0] == xs[0] && (xs + ys)[1..] == xs[1..] + ys;
      ApplyAppend(Apply(m, xs[0]), xs[1..], ys);
    }
  }

  /** An SRAM write stores `data` at the 24-bit address and nowhere else:
      the first snapshot writes, the one that returns to rest does not. */
  lemma SramWriteStores(m: map<nat, bv8>, out: seq<bv8>, addr: nat, data: bv8)
    requires |out| == NPorts
    ensures ApplyAll(m, SramWriteF(out, addr, data).ops) == m[Addr24(addr) := data]
  {
    var o := WithAddr(out[0 := WriteA][1 := data], addr);
    WithAddrSpells(out[0 := WriteA][1 := data], addr);
    assert Writes(WriteMask, o);
    assert !Writes(IdleMask, o[0 := IdleA]);
    ApplyAppend(m, [Wrote(WriteMask, o)], [Wrote(IdleMask, o[0 := IdleA])]);
    OneWrite(m, Wrote(WriteMask, o));
    OneWrite(m[Addr24(addr) := data], Wrote(IdleMask, o[0 := IdleA]));
  }

  /** An EEPROM write stores `data` at the 24-bit address and nowhere
      else: only the middle snapshot, with #we low, writes. */
  lemma EepromWriteStores(m: map<nat, bv8>, out: seq<bv8>, addr: nat, data: bv8)
    requires |out| == NPorts
    ensures ApplyAll(m, EepromWriteF(out, addr, data).ops) == m[Addr24(addr) := data]
  {
    var o1 := WithAddr(out[0 := SelectA][1 := data], addr);
    var o2 := o1[0 := WriteA];
    var o3 := o2[0 := SelectA];
    var o4 := o3[0 := IdleA];
    WithAddrSpells(out[0 := SelectA][1 := data], addr);
    assert !Writes(WriteMask, o1) && Writes(WriteMask, o2) && !Writes(WriteMask, o3) && !Writes(IdleMask, o4);
    var m2 := m[Addr24(addr) := data];
    ApplyAppend(m, [Wrote(WriteMask, o1), Wrote(WriteMask, o2)], [Wrote(WriteMask, o3), Wrote(IdleMask, o4)]);
    ApplyAppend(m, [Wrote(WriteMask, o1)], [Wrote(WriteMask, o2)]);
    OneWrite(m, Wrote(WriteMask, o1));
    OneWrite(m, Wrote(WriteMask, o2));
    ApplyAppend(m2, [Wrote(WriteMask, o3)], [Wrote(IdleMask, o4)]);
    OneWrite(m2, Wrote(WriteMask, o3));
    OneWrite(m2, Wrote(IdleMask, o4));
    assert [Wrote(WriteMask, o1), Wrote(WriteMask, o2)] == [Wrote(WriteMask, o1)] + [Wrote(WriteMask, o2)];
    assert EepromWriteF(out, addr, data).ops
      == [Wrote(WriteMask, o1), Wrote(WriteMask, o2)] + [Wrote(WriteMask, o3), Wrote(IdleMask, o4)];
  }

  /** A read changes nothing in the chip, and the sample is taken right
      after a snapshot in which the chip drives port B with the cell at
      the 24-bit address. */
  lemma ReadSeesCell(m: map<nat, bv8>, out: seq<bv8>, addr: nat, p: seq<bv8>)
    requires |out| == NPorts
    ensures var ops := ReadF(out, addr, p).ops;
      ApplyAll(m, ops) == m && ops[1] == Sampled(p) && ops[0].Wrote? && |ops[0].out| == NPorts
      && Reads(ops[0].trimask, ops[0].out) && ChipAddr(ops[0].out) == Addr24(addr)
  {
    var o := WithAddr(out[0 := ReadA], addr);
    WithAddrSpells(out[0 := ReadA], addr);
    assert !Writes(IdleMask, o) && !Writes(IdleMask, o[0 := IdleA]);
    var ops := ReadF(out, addr, p).ops;
    ApplyAppend(m, [ops[0]], ops[1..]);
    assert ops == [ops[0]] + ops[1..];
    OneWrite(m, ops[0]);
    ApplyAppend(m, [ops[1]], ops[2..]);
    assert ops[1..] == [ops[1]] + ops[2..];
    OneWrite(m, ops[1]);
    ApplyAppend(m, [ops[2]], ops[3..]);
    assert ops[2..] == [ops[2]] + ops[3..];
    OneWrite(m, ops[2]);
    OneWrite(m, ops[3]);
    assert ops[3..] == [ops[3]];
  }

  /** Write then read: if the chip answers the read with the cell it
      holds, `sram_read` returns what `sram_write` stored. */
  lemma WriteThenRead(m: map<nat, bv8>, out: seq<bv8>, addr: nat, data: bv8, p: seq<bv8>)
    requires |out| == NPorts && |p| == NPorts
    requires var w := SramWriteF(out, addr, data);
      var a := ChipAddr(ReadF(w.out, addr, p).ops[0].out);
      a in ApplyAll(m, w.ops) && p[1] == ApplyAll(m, w.ops)[a]
    ensures p[1] == data
  {
    var w := SramWriteF(out, addr, data);
    SramWriteStores(m, out, addr, data);
    ReadSeesCell(ApplyAll(m, w.ops), w.out, addr, p);
  }

  /** The same for the EEPROM: `eeprom_read` returns what `eeprom_write`
      stored. */
  lemma EepromWriteThenRead(m: map<nat, bv8>, out: seq<bv8>, addr: nat, data: bv8, p: seq<bv8>)
    requires |out| == NPorts && |p| == NPorts
    requires var w := EepromWriteF(out, addr, data);
      var a := ChipAddr(ReadF(w.out, addr, p).ops[0].out);
      a in ApplyAll(m, w.ops) && p[1] == ApplyAll(m, w.ops)[a]
    ensures p[1] == data
  {
    var w := EepromWriteF(out, addr, data);
    EepromWriteStores(m, out, addr, data);
    ReadSeesCell(ApplyAll(m, w.ops), w.out, addr, p);
  }

  // ---------------------------------------------------------------------
  // The methods

  method Init(b: Board)
    requires b.Valid()
    modifies b, b.outState
    ensures b.Valid() && b.trimask == IdleMask
    ensures b.log == old(b.log) + InitF(old(b.outState[..])).ops && b.outState[..] == InitF(old(b.outState[..])).out
  {
    b.outState[0] := IdleA;
    b.trimask := IdleMask;
    Snapshot(b);
  }

  method SetAddr(b: Board, addr: nat)
    requires b.Valid() && addr < UintRange
    modifies b.outState
    ensures b.outState[..] == WithAddr(old(b.outState[..]), addr)
  {
    b.outState[2] := AddrLo(addr);
    b.outState[3] := AddrMid(addr);
    b.outState[4] := AddrHi(addr);
  }

  method SramWrite(b: Board, addr: nat, data: bv8)
    requires b.Valid() && addr < UintRange
    modifies b, b.outState
    ensures b.Valid() && b.trimask == IdleMask
    ensures b.log == old(b.log) + SramWriteF(old(b.outState[..]), addr, data).ops
    ensures b.outState[..] == SramWriteF(old(b.outState[..]), addr, data).out
  {
    b.outState[0] := WriteA;
    b.outState[1] := data;
    SetAddr(b, addr);
    b.trimask := WriteMask;
    Snapshot(b);
    Init(b);
  }

  method EepromWrite(b: Board, addr: nat, data: bv8)
    requires b.Valid() && addr < UintRange
    modifies b, b.outState
    ensures b.Valid() && b.trimask == IdleMask
    ensures b.log == old(b.log) + EepromWriteF(old(b.outState[..]), addr, data).ops
    ensures b.outState[..] == EepromWriteF(old(b.outState[..]), addr, data).out
  {
    b.outState[0] := SelectA;
    b.outState[1] := data;
    SetAddr(b, addr);
    b.trimask := WriteMask;
    Snapshot(b);
    b.outState[0] := WriteA;
    Snapshot(b);
    b.outState[0] := SelectA;
    Snapshot(b);
    Init(b);
  }

  method Read(b: Board, addr: nat) returns (data: bv8, ghost p: seq<bv8>)
    requires b.Valid() && addr < UintRange
    modifies b, b.outState, b.inState
    ensures b.Valid() && b.trimask == IdleMask && |p| == NPorts && data == p[1]
    ensures b.log == old(b.log) + ReadF(old(b.outState[..]), addr, p).ops
    ensures b.outState[..] == ReadF(old(b.outState[..]), addr, p).out
  {
    b.outState[0] := ReadA;
    b.trimask := IdleMask;
    SetAddr(b, addr);
    Snapshot(b);
    p := Poll(b);
    Init(b);
    data := b.inState[1];
  }
}
