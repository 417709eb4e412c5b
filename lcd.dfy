/** host_software/lcd_test.c: a parallel character LCD of the HD44780 kind
    on the board. Port A drives its control lines (bit 0 RS, register or
    data; bit 1 R/W, read or write; bit 2 E, the strobe, active on its
    falling edge) and port B its eight data lines. Text is C text: bytes up
    to the first NUL. */
module Lcd {
  import opened Busyboard

  // ---------------------------------------------------------------------
  // Port A values

  /** E high, write, command register. */
  const CmdIdle: bv8 := 4
  /** E low, write, command register. */
  const CmdStrobe: bv8 := 0
  /** E high, write, data register. */
  const DataIdle: bv8 := 5
  /** E low, write, data register. */
  const DataStrobe: bv8 := 1

  /** The mask `lcd_init` sets: ports A to F driven. */
  const LcdMask: bv32 := 0x3f

  // ---------------------------------------------------------------------
  // What the host writes out, as functions of the state before

  /** `lcd_write_command`: the command on port B, port A through E high,
      E low, E high with RS and R/W low. */
  function WriteCommandF(t: bv32, out: seq<bv8>, cmd: bv8): (r: After)
    requires |out| == NPorts
    ensures |r.out| == NPorts
  {
    var h := out[0 := CmdIdle][1 := cmd];
    After([Wrote(t, h), Wrote(t, h[0 := CmdStrobe]), Wrote(t, h)], h)
  }

  /** `lcd_write_data`: the same with RS high. */
  function WriteDataF(t: bv32, out: seq<bv8>, data: bv8): (r: After)
    requires |out| == NPorts
    ensures |r.out| == NPorts
  {
    var h := out[0 := DataIdle][1 := data];
    After([Wrote(t, h), Wrote(t, h[0 := DataStrobe]), Wrote(t, h)], h)
  }

  /** Two calls one after the other. */
  function Then(a: After, b: After): After
  {
    After(a.ops + b.ops, b.out)
  }

  /** Commands in order. */
  function CommandsF(t: bv32, out: seq<bv8>, cmds: seq<bv8>): (r: After)
    requires |out| == NPorts
    ensures |r.out| == NPorts
    decreases |cmds|
  {
    if cmds == [] then After([], out)
    else
      var pre := CommandsF(t, out, cmds[..|cmds| - 1]);
      Then(pre, WriteCommandF(t, pre.out, cmds[|cmds| - 1]))
  }

  /** The commands `lcd_init` issues: wake-up three times, eight-bit two-line
      function set, cursor shift, display on, entry mode, cursor home. */
  const InitCommands: seq<bv8> := [0x30, 0x30, 0x30, 0x38, 0x10, 0x0c, 0x06, 0x02]

  /** `lcd_init`: the mask set, port A to E high in command mode, then the
      commands. */
  function InitF(out: seq<bv8>): (r: After)
    requires |out| == NPorts
    ensures |r.out| == NPorts
  {
    var o := out[0 := CmdIdle];
    Then(After([Wrote(LcdMask, o)], o), CommandsF(LcdMask, o, InitCommands))
  }

  /** The command byte `lcd_set_pos(row, col)` sends: set the display RAM
      address to `row * 40 + col`, of which `& 0x3f` keeps the low six bits
      (on C's two's-complement `int`, the Euclidean remainder by 64). */
  function SetPosCmd(row: int, col: int): bv8
  {
    0x80 | (((row * 40 + col) % 64) as bv8)
  }

  /** `lcd_set_pos`. */
  function SetPosF(t: bv32, out: seq<bv8>, row: int, col: int): (r: After)
    requires |out| == NPorts
    ensures |r.out| == NPorts
  {
    WriteCommandF(t, out, SetPosCmd(row, col))
  }

  /** Character `i` of the loop in `lcd_write_str`: before character 16
      the position moves to the start of the second row. */
  function CharF(t: bv32, out: seq<bv8>, i: nat, c: bv8): (r: After)
    requires |out| == NPorts
    ensures |r.out| == NPorts
  {
    if i == 16 then
      var p := SetPosF(t, out, 1, 0);
      Then(p, WriteDataF(t, p.out, c))
    else WriteDataF(t, out, c)
  }

  /** The loop of `lcd_write_str` over the characters `v`. */
  function CharsF(t: bv32, out: seq<bv8>, v: seq<bv8>): (r: After)
    requires |out| == NPorts
    ensures |r.out| == NPorts
    decreases |v|
  {
    if v == [] then After([], out)
    else
      var pre := CharsF(t, out, v[..|v| - 1]);
      Then(pre, CharF(t, pre.out, |v| - 1, v[|v| - 1]))
  }

  /** The most characters `lcd_write_str` writes. */
  const MaxChars: nat := 128

  /** The bytes of `s` before its first NUL; the end of `s` stands for the
      terminator. */
  function BeforeNul(s: seq<bv8>): seq<bv8>
    decreases |s|
  {
    if s == [] || s[0] == 0 then [] else [s[0]] + BeforeNul(s[1..])
  }

  /** The characters `lcd_write_str(s)` writes: those before the NUL, at
      most 128 of them. */
  function Visible(s: seq<bv8>): seq<bv8>
  {
    var v := BeforeNul(s);
    if |v| <= MaxChars then v else v[..MaxChars]
  }

  lemma {:induction false} BeforeNulSpec(s: seq<bv8>)
    ensures var v := BeforeNul(s);
      |v| <= |s| && v == s[..|v|] && (|v| < |s| ==> s[|v|] == 0)
      && forall k :: 0 <= k < |v| ==> v[k] != 0
    decreases |s|
  {
    if s != [] && s[0] != 0 {
      BeforeNulSpec(s[1..]);
    }
  }

  /** The written characters are the start of `s`, none of them NUL, no
      more than 128, and stop at the NUL, the end of `s` or the 128th. */
  lemma VisibleSpec(s: seq<bv8>)
    ensures var v := Visible(s);
      |v| <= MaxChars && |v| <= |s| && v == s[..|v|]
      && (forall k :: 0 <= k < |v| ==> v[k] != 0)
      && (|v| == MaxChars || |v| == |s| || s[|v|] == 0)
  {
    BeforeNulSpec(s);
  }

  /** The loop of `lcd_write_str` goes on exactly while it is inside
      `Visible(s)`, reading its characters. */
  lemma VisibleNext(s: seq<bv8>, i: nat)
    requires i <= |Visible(s)| && i < MaxChars && i < |s| && s[i] != 0
    ensures i < |Visible(s)| && Visible(s)[i] == s[i]
  {
    VisibleSpec(s);
  }

  lemma VisibleEnd(s: seq<bv8>, i: nat)
    requires i <= |Visible(s)| && !(i < MaxChars && i < |s| && s[i] != 0)
    ensures i == |Visible(s)|
  {
    VisibleSpec(s);
  }

  /** `lcd_write_str(s)`: the position at the start of the first row, then
      the characters. */
  function WriteStrF(t: bv32, out: seq<bv8>, s: seq<bv8>): (r: After)
    requires |out| == NPorts
    ensures |r.out| == NPorts
  {
    var p := SetPosF(t, out, 0, 0);
    Then(p, CharsF(t, p.out, Visible(s)))
  }

  /** The text `lcd_clear_screen` writes: 32 spaces, two rows of 16. */
  const Blank: seq<bv8> := seq(32, _ => 0x20)

  // ---------------------------------------------------------------------
  // What the LCD latches

  /** A transfer the LCD takes in: a byte for its command register or for
      its data register. */
  datatype Transfer = Command(cmd: bv8) | Char(data: bv8)

  /** The controller's view: the level of E last seen, and what it has
      taken in, in order. */
  datatype Controller = Controller(e: bool, got: seq<Transfer>)

  /** One entry of the log as the controller sees it: on a falling edge of
      E with R/W low, the byte on port B goes to the register RS names. */
  function Latch(c: Controller, op: Op): Controller
  {
    match op
    case Wrote(_, out) =>
      if |out| < 2 then c
      else
        var e := out[0] & 4 == 4;
        var x := if out[0] & 1 == 1 then Char(out[1]) else Command(out[1]);
        Controller(e, if c.e && !e && out[0] & 2 == 0 then c.got + [x] else c.got)
    case _ => c
  }

  function LatchAll(c: Controller, ops: seq<Op>): Controller
    decreases |ops|
  {
    if ops == [] then c else LatchAll(Latch(c, ops[0]), ops[1..])
  }

  lemma {:induction false} LatchAppend(c: Controller, a: seq<Op>, b: seq<Op>)
    ensures LatchAll(c, a + b) == LatchAll(LatchAll(c, a), b)
    decreases |a|
  {
    if a == [] {
      assert a + b == b;
    } else {
      assert (a + b)[0] == a[0] && (a + b)[1..] == a[1..] + b;
      LatchAppend(Latch(c, a[0]), a[1..], b);
    }
  }

  lemma LatchThree(c: Controller, x: Op, y: Op, z: Op)
    ensures LatchAll(c, [x, y, z]) == Latch(Latch(Latch(c, x), y), z)
  {
    assert [x, y, z][0] == x && [x, y, z][1..] == [y, z];
    assert [y, z][0] == y && [y, z][1..] == [z];
    assert [z][0] == z && [z][1..] == [];
    var c1, c2 := Latch(c, x), Latch(Latch(c, x), y);
    assert LatchAll(c, [x, y, z]) == LatchAll(c1, [y, z]);
    assert LatchAll(c1, [y, z]) == LatchAll(c2, [z]);
    assert LatchAll(c2, [z]) == LatchAll(Latch(c2, z), []);
  }

  /** Whatever E was before, `lcd_write_command` hands the controller its
      command exactly once, and leaves E high. */
  lemma CommandLatched(c: Controller, t: bv32, out: seq<bv8>, cmd: bv8)
    requires |out| == NPorts
    ensures LatchAll(c, WriteCommandF(t, out, cmd).ops) == Controller(true, c.got + [Command(cmd)])
  {
    var h := out[0 := CmdIdle][1 := cmd];
    LatchThree(c, Wrote(t, h), Wrote(t, h[0 := CmdStrobe]), Wrote(t, h));
  }

  /** ... and `lcd_write_data` its character. */
  lemma DataLatched(c: Controller, t: bv32, out: seq<bv8>, data: bv8)
    requires |out| == NPorts
    ensures LatchAll(c, WriteDataF(t, out, data).ops) == Controller(true, c.got + [Char(data)])
  {
    var h := out[0 := DataIdle][1 := data];
    LatchThree(c, Wrote(t, h), Wrote(t, h[0 := DataStrobe]), Wrote(t, h));
  }

  function Commands(cmds: seq<bv8>): (r: seq<Transfer>)
    ensures |r| == |cmds|
    ensures forall k :: 0 <= k < |cmds| ==> r[k] == Command(cmds[k])
  {
    seq(|cmds|, k requires 0 <= k < |cmds| => Command(cmds[k]))
  }

  lemma {:induction false} CommandsLatched(c: Controller, t: bv32, out: seq<bv8>, cmds: seq<bv8>)
    requires |out| == NPorts && cmds != []
    ensures LatchAll(c, CommandsF(t, out, cmds).ops) == Controller(true, c.got + Commands(cmds))
    decreases |cmds|
  {
    var n := |cmds| - 1;
    var pre := CommandsF(t, out, cmds[..n]);
    LatchAppend(c, pre.ops, WriteCommandF(t, pre.out, cmds[n]).ops);
    if n == 0 {
      assert pre.ops == [];
      CommandLatched(c, t, pre.out, cmds[n]);
    } else {
      CommandsLatched(c, t, out, cmds[..n]);
      CommandLatched(LatchAll(c, pre.ops), t, pre.out, cmds[n]);
      assert Commands(cmds[..n]) + [Command(cmds[n])] == Commands(cmds);
    }
  }

  /** `lcd_init` hands the controller the start-up commands, in order, and
      nothing else, whatever state it was in. */
  lemma InitLatched(c: Controller, out: seq<bv8>)
    requires |out| == NPorts
    ensures LatchAll(c, InitF(out).ops) == Controller(true, c.got + Commands(InitCommands))
  {
    var o := out[0 := CmdIdle];
    LatchAppend(c, [Wrote(LcdMask, o)], CommandsF(LcdMask, o, InitCommands).ops);
    var c1 := Latch(c, Wrote(LcdMask, o));
    assert LatchAll(c, [Wrote(LcdMask, o)]) == c1 by {
      assert [Wrote(LcdMask, o)][1..] == [];
    }
    CommandsLatched(c1, LcdMask, o, InitCommands);
  }

  /** What the loop of `lcd_write_str` hands over for the characters `v`:
      one character each, with the move to the second row before
      character 16. */
  function CharTransfers(v: seq<bv8>): seq<Transfer>
    decreases |v|
  {
    if v == [] then []
    else
      var n := |v| - 1;
      CharTransfers(v[..n]) + (if n == 16 then [Command(SetPosCmd(1, 0))] else []) + [Char(v[n])]
  }

  /** One pass of the loop of `lcd_write_str`. */
  lemma CharLatched(c: Controller, t: bv32, out: seq<bv8>, i: nat, ch: bv8)
    requires |out| == NPorts
    ensures LatchAll(c, CharF(t, out, i, ch).ops)
      == Controller(true, c.got + (if i == 16 then [Command(SetPosCmd(1, 0))] else []) + [Char(ch)])
  {
    if i == 16 {
      var p := SetPosF(t, out, 1, 0);
      LatchAppend(c, p.ops, WriteDataF(t, p.out, ch).ops);
      CommandLatched(c, t, out, SetPosCmd(1, 0));
      DataLatched(LatchAll(c, p.ops), t, p.out, ch);
    } else {
      DataLatched(c, t, out, ch);
      assert c.got + [] == c.got;
    }
  }

  lemma {:induction false} CharsLatched(c: Controller, t: bv32, out: seq<bv8>, v: seq<bv8>)
    requires |out| == NPorts && c.e
    ensures LatchAll(c, CharsF(t, out, v).ops) == Controller(true, c.got + CharTransfers(v))
    decreases |v|
  {
    if v == [] {
      assert c.got + [] == c.got;
    } else {
      var n := |v| - 1;
      var pre := CharsF(t, out, v[..n]);
      CharsLatched(c, t, out, v[..n]);
      LatchAppend(c, pre.ops, CharF(t, pre.out, n, v[n]).ops);
      CharLatched(LatchAll(c, pre.ops), t, pre.out, n, v[n]);
    }
  }

  /** A character more for the loop of `lcd_write_str`. */
  lemma CharsSnoc(t: bv32, out: seq<bv8>, v: seq<bv8>, ch: bv8)
    requires |out| == NPorts
    ensures var pre := CharsF(t, out, v);
      CharsF(t, out, v + [ch]) == Then(pre, CharF(t, pre.out, |v|, ch))
  {
    assert (v + [ch])[..|v|] == v;
  }

  /** `lcd_write_str(s)` hands the controller the move to the start of the
      first row and then the visible characters of `s`, with the move to
      the second row before the 17th. */
  lemma WriteStrLatched(c: Controller, t: bv32, out: seq<bv8>, s: seq<bv8>)
    requires |out| == NPorts
    ensures LatchAll(c, WriteStrF(t, out, s).ops)
      == Controller(true, c.got + [Command(SetPosCmd(0, 0))] + CharTransfers(Visible(s)))
  {
    var p := SetPosF(t, out, 0, 0);
    LatchAppend(c, p.ops, CharsF(t, p.out, Visible(s)).ops);
    CommandLatched(c, t, out, SetPosCmd(0, 0));
    CharsLatched(LatchAll(c, p.ops), t, p.out, Visible(s));
  }

  /** The transfers as a whole: the first 16 characters, then (if there
      are more) the move and the rest. */
  lemma {:induction false} CharTransfersClosed(v: seq<bv8>)
    ensures CharTransfers(v)
      == if |v| <= 16 then Chars(v)
         else Chars(v[..16]) + [Command(SetPosCmd(1, 0))] + Chars(v[16..])
    decreases |v|
  {
    if v != [] {
      var n := |v| - 1;
      CharTransfersClosed(v[..n]);
      if n < 16 {
        CharsFrom(v, 0);
        assert v[..n][0..] == v[..n] && v[0..] == v;
      } else {
        assert v[..n][..16] == v[..16];
        CharsFrom(v, 16);
        var move := Chars(v[..16]) + [Command(SetPosCmd(1, 0))];
        TransfersAssoc(move, Chars(v[..n][16..]), [Char(v[n])]);
      }
    }
  }

  /** The characters of `v` from `k` are those of its first `|v| - 1`
      from `k`, and then its last. */
  lemma CharsFrom(v: seq<bv8>, k: nat)
    requires k < |v|
    ensures Chars(v[..|v| - 1][k..]) + [Char(v[|v| - 1])] == Chars(v[k..])
  {
    assert v[..|v| - 1][k..] + [v[|v| - 1]] == v[k..];
  }

  lemma TransfersAssoc(a: seq<Transfer>, b: seq<Transfer>, c: seq<Transfer>)
    ensures (a + b) + c == a + (b + c)
  {
  }

  function Chars(v: seq<bv8>): (r: seq<Transfer>)
    ensures |r| == |v|
    ensures forall k :: 0 <= k < |v| ==> r[k] == Char(v[k])
  {
    seq(|v|, k requires 0 <= k < |v| => Char(v[k]))
  }

  /** The address the set-position command carries, and what it is for the
      rows and columns the program uses: row 0 from 0, row 1 from 40.
      Positions past 63 wrap: (1, 24) is (0, 0) again. */
  lemma SetPosAddress(row: int, col: int)
    ensures SetPosCmd(row, col) & 0x80 == 0x80
    ensures (SetPosCmd(row, col) & 0x7f) as int == (row * 40 + col) % 64
    ensures 0 <= row * 40 + col < 64 ==> (SetPosCmd(row, col) & 0x7f) as int == row * 40 + col
    ensures SetPosCmd(1, 24) == SetPosCmd(0, 0)
  {
    var x := row * 40 + col;
    var n := x % 64;
    SetPosBits(n);
    assert SetPosCmd(row, col) == 0x80 | (n as bv8);
    if 0 <= x < 64 {
      assert n == x;
    }
    assert 1 * 40 + 24 == 64 && 64 % 64 == 0 && (0 * 40 + 0) % 64 == 0;
  }

  /** The command byte for address `n`: bit 7 set, `n` in the low bits. */
  lemma SetPosBits(n: int)
    requires 0 <= n < 64
    ensures (0x80 | (n as bv8)) & 0x80 == 0x80
    ensures ((0x80 | (n as bv8)) & 0x7f) as int == n
  {
    var a := n as bv8;
    ByteOfInt(n);
    BelowBit7(a);
  }

  lemma ByteOfInt(n: int)
    requires 0 <= n < 64
    ensures (n as bv8) as int == n
  {
    assert n % 256 == n;
  }

  lemma BelowBit7(a: bv8)
    requires a as int < 64
    ensures (0x80 | a) & 0x80 == 0x80 && (0x80 | a) & 0x7f == a
  {
  }

  // ---------------------------------------------------------------------
  // What the display shows

  /** The display RAM as far as the program uses it: the address counter
      and the bytes stored. */
  datatype Screen = Screen(addr: int, ram: map<int, bv8>)

  /** A transfer's effect on the display RAM: a set-address command (bit 7
      set) loads the counter, a character is stored and moves it on; the
      other commands do not touch the RAM. */
  function Show(sc: Screen, x: Transfer): Screen
  {
    match x
    case Command(cmd) => if cmd & 0x80 == 0x80 then Screen((cmd & 0x7f) as int, sc.ram) else sc
    case Char(d) => Screen(sc.addr + 1, sc.ram[sc.addr := d])
  }

  function ShowAll(sc: Screen, xs: seq<Transfer>): Screen
    decreases |xs|
  {
    if xs == [] then sc else ShowAll(Show(sc, xs[0]), xs[1..])
  }

  lemma {:induction false} ShowAppend(sc: Screen, a: seq<Transfer>, b: seq<Transfer>)
    ensures ShowAll(sc, a + b) == ShowAll(ShowAll(sc, a), b)
    decreases |a|
  {
    if a == [] {
      assert a + b == b;
    } else {
      assert (a + b)[0] == a[0] && (a + b)[1..] == a[1..] + b;
      ShowAppend(Show(sc, a[0]), a[1..], b);
    }
  }

  lemma ShowOne(sc: Screen, x: Transfer)
    ensures ShowAll(sc, [x]) == Show(sc, x)
  {
    assert [x][1..] == [];
  }

  /** Where character `k` of a string goes: row 0 from address 0, row 1
      from address 40. */
  function Pos(k: nat): int
  {
    if k < 16 then k else 24 + k
  }

  /** The address counter after `n` characters. */
  function After16(n: nat): int
  {
    if n <= 16 then n else 24 + n
  }

  /** The characters of `v` stand where `lcd_write_str` puts them. */
  predicate Shows(sc: Screen, v: seq<bv8>)
  {
    forall k :: 0 <= k < |v| ==> Pos(k) in sc.ram && sc.ram[Pos(k)] == v[k]
  }

  lemma {:induction false} CharsShown(ram: map<int, bv8>, v: seq<bv8>)
    ensures var sc := ShowAll(Screen(0, ram), CharTransfers(v));
      sc.addr == After16(|v|) && Shows(sc, v)
      && forall a :: a in ram && (forall k :: 0 <= k < |v| ==> a != Pos(k)) ==> a in sc.ram && sc.ram[a] == ram[a]
    decreases |v|
  {
    if v != [] {
      var n := |v| - 1;
      CharsShown(ram, v[..n]);
      var sc := ShowAll(Screen(0, ram), CharTransfers(v[..n]));
      var mv := if n == 16 then [Command(SetPosCmd(1, 0))] else [];
      ShowAppend(Screen(0, ram), CharTransfers(v[..n]) + mv, [Char(v[n])]);
      ShowAppend(Screen(0, ram), CharTransfers(v[..n]), mv);
      var sc1 := ShowAll(sc, mv);
      if n == 16 {
        ShowOne(sc, Command(SetPosCmd(1, 0)));
        SetPosAddress(1, 0);
      }
      assert sc1.addr == Pos(n) && sc1.ram == sc.ram;
      ShowOne(sc1, Char(v[n]));
      CharShownStep(ram, v, sc, sc1);
    }
  }

  /** The last character of `v` lands at its place and the first ones
      stay put. */
  lemma CharShownStep(ram: map<int, bv8>, v: seq<bv8>, sc: Screen, sc1: Screen)
    requires v != []
    requires Shows(sc, v[..|v| - 1]) && sc.addr == After16(|v| - 1)
    requires forall a :: a in ram && (forall k :: 0 <= k < |v| - 1 ==> a != Pos(k)) ==> a in sc.ram && sc.ram[a] == ram[a]
    requires sc1.addr == Pos(|v| - 1) && sc1.ram == sc.ram
    ensures var sc2 := Show(sc1, Char(v[|v| - 1]));
      sc2.addr == After16(|v|) && Shows(sc2, v)
      && forall a :: a in ram && (forall k :: 0 <= k < |v| ==> a != Pos(k)) ==> a in sc2.ram && sc2.ram[a] == ram[a]
  {
    var n := |v| - 1;
    var sc2 := Show(sc1, Char(v[n]));
    forall k | 0 <= k < |v|
      ensures Pos(k) in sc2.ram && sc2.ram[Pos(k)] == v[k]
    {
      if k < n {
        assert v[..n][k] == v[k];
      }
    }
  }

  /** After `lcd_write_str(s)`, whatever the display held, each visible
      character of `s` is at its place (the first 16 in row 0 from address
      0, the rest in row 1 from address 40) and every other address keeps
      its byte. */
  lemma WriteStrShown(sc: Screen, s: seq<bv8>)
    ensures var r := ShowAll(sc, [Command(SetPosCmd(0, 0))] + CharTransfers(Visible(s)));
      Shows(r, Visible(s))
      && forall a :: a in sc.ram && (forall k :: 0 <= k < |Visible(s)| ==> a != Pos(k)) ==> a in r.ram && r.ram[a] == sc.ram[a]
  {
    SetPosAddress(0, 0);
    ShowAppend(sc, [Command(SetPosCmd(0, 0))], CharTransfers(Visible(s)));
    ShowOne(sc, Command(SetPosCmd(0, 0)));
    CharsShown(sc.ram, Visible(s));
  }

  /** `lcd_clear_screen` writes 32 spaces: both 16-character rows blank. */
  lemma ClearShown(sc: Screen)
    ensures var r := ShowAll(sc, [Command(SetPosCmd(0, 0))] + CharTransfers(Visible(Blank)));
      (forall a :: 0 <= a < 16 ==> a in r.ram && r.ram[a] == 0x20)
      && (forall a :: 40 <= a < 56 ==> a in r.ram && r.ram[a] == 0x20)
  {
    BeforeNulSpec(Blank);
    assert Visible(Blank) == Blank;
    WriteStrShown(sc, Blank);
    var r := ShowAll(sc, [Command(SetPosCmd(0, 0))] + CharTransfers(Blank));
    forall a | 0 <= a < 16
      ensures a in r.ram && r.ram[a] == 0x20
    {
      assert Pos(a) == a;
    }
    forall a | 40 <= a < 56
      ensures a in r.ram && r.ram[a] == 0x20
    {
      assert Pos(a - 24) == a;
    }
  }

  // ---------------------------------------------------------------------
  // The host side

  /** `lcd_write_command`. */
  method WriteCommand(b: Board, cmd: bv8)
    requires b.Valid()
    modifies b, b.outState
    ensures b.Valid() && b.trimask == old(b.trimask)
    ensures b.log == old(b.log) + WriteCommandF(b.trimask, old(b.outState[..]), cmd).ops
    ensures b.outState[..] == WriteCommandF(b.trimask, old(b.outState[..]), cmd).out
  {
    ghost var h := old(b.outState[..])[0 := CmdIdle][1 := cmd];
    b.outState[0] := CmdIdle;
    b.outState[1] := cmd;
    Snapshot(b);
    b.outState[0] := CmdStrobe;
    Snapshot(b);
    b.outState[0] := CmdIdle;
    Snapshot(b);
    assert h[0 := CmdStrobe][0 := CmdIdle] == h;
  }

  /** `lcd_write_data`. */
  method WriteData(b: Board, data: bv8)
    requires b.Valid()
    modifies b, b.outState
    ensures b.Valid() && b.trimask == old(b.trimask)
    ensures b.log == old(b.log) + WriteDataF(b.trimask, old(b.outState[..]), data).ops
    ensures b.outState[..] == WriteDataF(b.trimask, old(b.outState[..]), data).out
  {
    ghost var h := old(b.outState[..])[0 := DataIdle][1 := data];
    b.outState[0] := DataIdle;
    b.outState[1] := data;
    Snapshot(b);
    b.outState[0] := DataStrobe;
    Snapshot(b);
    b.outState[0] := DataIdle;
    Snapshot(b);
    assert h[0 := DataStrobe][0 := DataIdle] == h;
  }

  lemma SeqAssoc(a: seq<Op>, b: seq<Op>, c: seq<Op>)
    ensures (a + b) + c == a + (b + c)
  {
  }

  /** `lcd_init`. */
  method Init(b: Board)
    requires b.Valid()
    modifies b, b.outState
    ensures b.Valid() && b.trimask == LcdMask
    ensures b.log == old(b.log) + InitF(old(b.outState[..])).ops
    ensures b.outState[..] == InitF(old(b.outState[..])).out
  {
    b.trimask := LcdMask;
    b.outState[0] := CmdIdle;
    Snapshot(b);
    ghost var log1, out1 := b.log, b.outState[..];
    var i := 0;
    while i < |InitCommands|
      invariant 0 <= i <= |InitCommands| && b.Valid() && b.trimask == LcdMask
      invariant b.log == log1 + CommandsF(LcdMask, out1, InitCommands[..i]).ops
      invariant b.outState[..] == CommandsF(LcdMask, out1, InitCommands[..i]).out
    {
      ghost var pre := CommandsF(LcdMask, out1, InitCommands[..i]);
      WriteCommand(b, InitCommands[i]);
      assert InitCommands[..i + 1][..i] == InitCommands[..i];
      SeqAssoc(log1, pre.ops, WriteCommandF(LcdMask, pre.out, InitCommands[i]).ops);
      i := i + 1;
    }
    assert InitCommands[..i] == InitCommands;
  }

  /** `lcd_set_pos`; `row * 40 + col` must fit in a C `int`. */
  method SetPos(b: Board, row: int, col: int)
    requires b.Valid() && -0x8000_0000 <= row * 40 + col < 0x8000_0000
    modifies b, b.outState
    ensures b.Valid() && b.trimask == old(b.trimask)
    ensures b.log == old(b.log) + SetPosF(b.trimask, old(b.outState[..]), row, col).ops
    ensures b.outState[..] == SetPosF(b.trimask, old(b.outState[..]), row, col).out
  {
    var addr := (row * 40 + col) % 64;
    WriteCommand(b, 0x80 | addr as bv8);
  }

  /** One pass of `lcd_write_str`'s loop: the move to the second row
      before the 17th character, then character `c`. */
  method PutChar(b: Board, i: nat, c: bv8)
    requires b.Valid()
    modifies b, b.outState
    ensures b.Valid() && b.trimask == old(b.trimask)
    ensures b.log == old(b.log) + CharF(b.trimask, old(b.outState[..]), i, c).ops
    ensures b.outState[..] == CharF(b.trimask, old(b.outState[..]), i, c).out
  {
    if i == 16 {
      ghost var log0, t, out0 := b.log, b.trimask, b.outState[..];
      SetPos(b, 1, 0);
      ghost var p := SetPosF(t, out0, 1, 0);
      WriteData(b, c);
      SeqAssoc(log0, p.ops, WriteDataF(t, p.out, c).ops);
    } else {
      WriteData(b, c);
    }
  }

  /** `lcd_write_str`. */
  method WriteStr(b: Board, s: seq<bv8>)
    requires b.Valid()
    modifies b, b.outState
    ensures b.Valid() && b.trimask == old(b.trimask)
    ensures b.log == old(b.log) + WriteStrF(b.trimask, old(b.outState[..]), s).ops
    ensures b.outState[..] == WriteStrF(b.trimask, old(b.outState[..]), s).out
  {
    ghost var log0, t, out0 := b.log, b.trimask, b.outState[..];
    SetPos(b, 0, 0);
    ghost var p := SetPosF(t, out0, 0, 0);
    WriteChars(b, s);
    SeqAssoc(log0, p.ops, CharsF(t, p.out, Visible(s)).ops);
  }

  /** The loop of `lcd_write_str`: at most 128 characters, up to the
      first NUL. */
  method WriteChars(b: Board, s: seq<bv8>)
    requires b.Valid()
    modifies b, b.outState
    ensures b.Valid() && b.trimask == old(b.trimask)
    ensures b.log == old(b.log) + CharsF(b.trimask, old(b.outState[..]), Visible(s)).ops
    ensures b.outState[..] == CharsF(b.trimask, old(b.outState[..]), Visible(s)).out
  {
    ghost var t := b.trimask;
    ghost var v := Visible(s);
    ghost var log1, out1 := b.log, b.outState[..];
    var i := 0;
    while i < MaxChars && i < |s| && s[i] != 0
      invariant 0 <= i <= |v| && b.Valid() && b.trimask == t
      invariant b.log == log1 + CharsF(t, out1, v[..i]).ops
      invariant b.outState[..] == CharsF(t, out1, v[..i]).out
    {
      ghost var pre := CharsF(t, out1, v[..i]);
      VisibleNext(s, i);
      assert v[..i + 1] == v[..i] + [s[i]];
      CharsSnoc(t, out1, v[..i], s[i]);
      PutChar(b, i, s[i]);
      SeqAssoc(log1, pre.ops, CharF(t, pre.out, i, s[i]).ops);
      i := i + 1;
    }
    VisibleEnd(s, i);
    assert v[..i] == v;
  }

  /** `lcd_clear_screen`. */
  method ClearScreen(b: Board)
    requires b.Valid()
    modifies b, b.outState
    ensures b.Valid() && b.trimask == old(b.trimask)
    ensures b.log == old(b.log) + WriteStrF(b.trimask, old(b.outState[..]), Blank).ops
    ensures b.outState[..] == WriteStrF(b.trimask, old(b.outState[..]), Blank).out
  {
    WriteStr(b, Blank);
  }
}
