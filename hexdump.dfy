/** `dump_hex` of host_software/z80_test.c (host_software/65c02_test.c
    has the same routine): the 64 KiB memory the host plays for the CPU,
    printed as 4096 lines of sixteen bytes. */
module HexDump {
  import CpuBus

  /** A lower-case hex digit, as `%x` prints it. */
  function HexDigit(d: nat): char
    requires d < 16
  {
    if d < 10 then ('0' as int + d) as char else ('a' as int + d - 10) as char
  }

  /** `%02x` of a byte. */
  function Hex2(x: bv8): (r: string)
    ensures |r| == 2
  {
    var n := x as nat;
    CpuBus.ByteNat(x, x);
    [HexDigit(n / 16), HexDigit(n % 16)]
  }

  /** `%04x` of a number below 0x10000. */
  function Hex4(n: nat): (r: string)
    requires n < 0x10000
    ensures |r| == 4
  {
    [HexDigit(n / 16 / 16 / 16), HexDigit(n / 16 / 16 % 16), HexDigit(n / 16 % 16), HexDigit(n % 16)]
  }

  /** What follows byte `j` of a line: a space, two after every fourth,
      nothing after the last. */
  function Sep(j: nat): (r: string)
    ensures |r| == if j == 15 then 0 else if j % 4 == 3 then 2 else 1
  {
    if j == 15 then "" else if j % 4 == 3 then "  " else " "
  }

  /** The first `n` bytes of the line for the cells from `base`. */
  function LineBytes(m: seq<bv8>, base: nat, n: nat): string
    requires base + n <= |m| && n <= 16
  {
    if n == 0 then "" else LineBytes(m, base, n - 1) + Hex2(m[base + n - 1]) + Sep(n - 1)
  }

  /** Each byte takes its two digits and its separator. */
  lemma {:induction false} LineBytesLen(m: seq<bv8>, base: nat, n: nat)
    requires base + n <= |m| && n <= 16
    ensures |LineBytes(m, base, n)| == if n == 16 then 50 else Offset(n)
  {
    if n > 0 {
      LineBytesLen(m, base, n - 1);
      QuarterStep(n - 1);
    }
  }

  lemma QuarterStep(k: nat)
    ensures (k + 1) / 4 == k / 4 + (if k % 4 == 3 then 1 else 0)
  {
    var q, r := k / 4, k % 4;
    assert k + 1 == 4 * q + (r + 1);
  }

  /** Line `r`: the address of its first cell, a colon and a space, the
      sixteen bytes and a newline. */
  function Line(m: seq<bv8>, r: nat): (l: string)
    requires |m| == CpuBus.MemSize && r < 4096
    ensures |l| == 57
  {
    LineBytesLen(m, 16 * r, 16);
    Hex4(16 * r) + ": " + LineBytes(m, 16 * r, 16) + "\n"
  }

  /** Strings one after the other. */
  function Concat(ls: seq<string>): string
  {
    if ls == [] then "" else Concat(ls[..|ls| - 1]) + ls[|ls| - 1]
  }

  /** The 4096 lines. */
  function LinesOf(m: seq<bv8>): (ls: seq<string>)
    requires |m| == CpuBus.MemSize
    ensures |ls| == 4096 && forall r :: 0 <= r < 4096 ==> ls[r] == Line(m, r)
  {
    seq(4096, r requires 0 <= r < 4096 => Line(m, r))
  }

  /** `dump_hex`'s output. */
  function DumpText(m: seq<bv8>): (s: string)
    requires |m| == CpuBus.MemSize
    ensures |s| == 57 * 4096
  {
    ConcatLen(LinesOf(m));
    Concat(LinesOf(m))
  }

  /** The column at which byte `j` of a line starts. */
  function Col(j: nat): nat
  {
    6 + Offset(j)
  }

  /** The same, counted from the end of the ": ". */
  function Offset(j: nat): nat
  {
    3 * j + j / 4
  }

  /** The two digits of `x` at `i` in `s`. */
  predicate HexAt(s: string, i: nat, x: bv8)
  {
    i + 2 <= |s| && s[i] == Hex2(x)[0] && s[i + 1] == Hex2(x)[1]
  }

  lemma HexAtPrefix(s: string, t: string, i: nat, x: bv8)
    requires HexAt(s, i, x)
    ensures HexAt(s + t, i, x)
  {
  }

  lemma HexAtEnd(s: string, x: bv8, t: string)
    ensures HexAt(s + Hex2(x) + t, |s|, x)
  {
  }

  /** Byte `j` of the first `n` stands at its column, counted from the end
      of the ": ". */
  lemma LineBytesAt(m: seq<bv8>, base: nat, n: nat, j: nat)
    requires base + n <= |m| && j < n <= 16
    ensures HexAt(LineBytes(m, base, n), Offset(j), m[base + j])
  {
    var s1, s := LineBytes(m, base, j + 1), LineBytes(m, base, n);
    LineBytesPrefix(m, base, j + 1, n);
    LineBytesLast(m, base, j);
    HexAtPrefix(s1, s[|s1|..], Offset(j), m[base + j]);
    PrefixSplit(s1, s);
  }

  /** The first bytes of a line are written before the later ones. */
  lemma {:induction false} LineBytesPrefix(m: seq<bv8>, base: nat, k: nat, n: nat)
    requires base + n <= |m| && k <= n <= 16
    ensures LineBytes(m, base, k) <= LineBytes(m, base, n)
    decreases n
  {
    if k < n {
      LineBytesPrefix(m, base, k, n - 1);
      var pre := LineBytes(m, base, n - 1);
      assert LineBytes(m, base, n) == pre + (Hex2(m[base + n - 1]) + Sep(n - 1));
      PrefixAppend(LineBytes(m, base, k), pre, Hex2(m[base + n - 1]) + Sep(n - 1));
    }
  }

  lemma PrefixAppend(a: string, b: string, c: string)
    requires a <= b
    ensures a <= b + c
  {
    assert (b + c)[..|a|] == b[..|a|];
  }

  lemma PrefixSplit(a: string, b: string)
    requires a <= b
    ensures a + b[|a|..] == b
  {
    assert b == b[..|a|] + b[|a|..];
  }

  lemma LineBytesLast(m: seq<bv8>, base: nat, j: nat)
    requires base + j < |m| && j < 16
    ensures HexAt(LineBytes(m, base, j + 1), Offset(j), m[base + j])
  {
    var pre := LineBytes(m, base, j);
    LineBytesLen(m, base, j);
    assert LineBytes(m, base, j + 1) == pre + Hex2(m[base + j]) + Sep(j);
    HexAtEnd(pre, m[base + j], Sep(j));
  }

  /** A line is 57 characters: the address, ": ", each byte at its
      column, and the newline. */
  lemma LineLayout(m: seq<bv8>, r: nat)
    requires |m| == CpuBus.MemSize && r < 4096
    ensures var l := Line(m, r);
      |l| == 57 && l[..4] == Hex4(16 * r) && l[4..6] == ": " && l[56] == '\n'
  {
  }

  lemma LineAt(m: seq<bv8>, r: nat, j: nat)
    requires |m| == CpuBus.MemSize && r < 4096 && j < 16
    ensures HexAt(Line(m, r), Col(j), m[16 * r + j])
  {
    LineBytesAt(m, 16 * r, 16, j);
    var b := LineBytes(m, 16 * r, 16);
    var h := Hex4(16 * r) + ": ";
    assert Line(m, r) == h + b + "\n";
    assert (h + b + "\n")[Col(j)] == b[Offset(j)];
    assert (h + b + "\n")[Col(j) + 1] == b[Offset(j) + 1];
  }

  /** Character `k` of string `r` among strings of 57 characters. */
  lemma {:induction false} ConcatAt(ls: seq<string>, r: nat, k: nat)
    requires forall i :: 0 <= i < |ls| ==> |ls[i]| == 57
    requires r < |ls| && k < 57
    ensures |Concat(ls)| == 57 * |ls|
    ensures 57 * r + k < |Concat(ls)| && Concat(ls)[57 * r + k] == ls[r][k]
    decreases |ls|
  {
    var n := |ls| - 1;
    var pre := Concat(ls[..n]);
    ConcatLen(ls[..n]);
    if r < n {
      ConcatAt(ls[..n], r, k);
      assert Concat(ls)[57 * r + k] == pre[57 * r + k];
    } else {
      assert Concat(ls)[57 * r + k] == ls[n][k];
    }
  }

  lemma {:induction false} ConcatLen(ls: seq<string>)
    requires forall i :: 0 <= i < |ls| ==> |ls[i]| == 57
    ensures |Concat(ls)| == 57 * |ls|
    decreases |ls|
  {
    if ls != [] {
      ConcatLen(ls[..|ls| - 1]);
    }
  }

  /** Character `k` of line `r` of the dump. */
  lemma DumpAt(m: seq<bv8>, r: nat, k: nat)
    requires |m| == CpuBus.MemSize && r < 4096 && k < 57
    ensures |DumpText(m)| == 57 * 4096
    ensures DumpText(m)[57 * r + k] == Line(m, r)[k]
  {
    ConcatAt(LinesOf(m), r, k);
  }

  /** The value of a hex digit `dump_hex` prints. */
  function DigitValue(c: char): nat
  {
    if '0' <= c <= '9' then (c - '0') as nat
    else if 'a' <= c <= 'f' then (c - 'a') as nat + 10
    else 0
  }

  lemma DigitRoundTrip(d: nat)
    requires d < 16
    ensures DigitValue(HexDigit(d)) == d
  {
  }

  /** Reading back two hex digits at `i`. */
  function ReadHex2(s: string, i: nat): nat
    requires i + 2 <= |s|
  {
    DigitValue(s[i]) * 16 + DigitValue(s[i + 1])
  }

  lemma Split16(n: nat)
    ensures n / 16 * 16 + n % 16 == n
  {
  }

  lemma Hex2RoundTrip(s: string, i: nat, x: bv8)
    requires HexAt(s, i, x)
    ensures ReadHex2(s, i) == x as nat
  {
    CpuBus.ByteNat(x, x);
    DigitRoundTrip(x as nat / 16);
    DigitRoundTrip(x as nat % 16);
    Split16(x as nat);
  }

  /** Reading four hex digits at `i`. */
  function ReadHex4(s: string, i: nat): nat
    requires i + 4 <= |s|
  {
    ((DigitValue(s[i]) * 16 + DigitValue(s[i + 1])) * 16 + DigitValue(s[i + 2])) * 16 + DigitValue(s[i + 3])
  }

  lemma Split4096(n: nat)
    ensures ((n / 16 / 16 / 16 * 16 + n / 16 / 16 % 16) * 16 + n / 16 % 16) * 16 + n % 16 == n
  {
    Split16(n);
    Split16(n / 16);
    Split16(n / 16 / 16);
  }

  lemma Hex4RoundTrip(n: nat)
    requires n < 0x10000
    ensures ReadHex4(Hex4(n), 0) == n
  {
    DigitRoundTrip(n / 16 / 16 / 16);
    DigitRoundTrip(n / 16 / 16 % 16);
    DigitRoundTrip(n / 16 % 16);
    DigitRoundTrip(n % 16);
    Split4096(n);
  }

  /** Memory read back from a dump: cell `a` from the two digits at its
      line and column. */
  function ReadDump(s: string): (r: seq<nat>)
    requires |s| == 57 * 4096
    ensures |r| == CpuBus.MemSize
  {
    seq(CpuBus.MemSize, a requires 0 <= a < CpuBus.MemSize => ReadHex2(s, 57 * (a / 16) + Col(a % 16)))
  }

  lemma CellAt(m: seq<bv8>, a: nat)
    requires |m| == CpuBus.MemSize && a < CpuBus.MemSize
    ensures |DumpText(m)| == 57 * 4096
    ensures HexAt(DumpText(m), 57 * (a / 16) + Col(a % 16), m[a])
  {
    CellPlace(a);
    CellOfLine(m, a / 16, a % 16);
  }

  /** Byte `j` of line `r` sits in the dump at column `Col(j)` of that line. */
  lemma CellOfLine(m: seq<bv8>, r: nat, j: nat)
    requires |m| == CpuBus.MemSize && r < 4096 && j < 16
    requires Col(j) <= 54
    ensures HexAt(DumpText(m), 57 * r + Col(j), m[16 * r + j])
  {
    LineAt(m, r, j);
    DumpAt2(m, r, Col(j));
    HexAtMove(Line(m, r), DumpText(m), 57 * r, Col(j), m[16 * r + j]);
  }

  /** Two neighbouring characters of line `r` in the dump. */
  lemma DumpAt2(m: seq<bv8>, r: nat, k: nat)
    requires |m| == CpuBus.MemSize && r < 4096 && k + 1 < 57
    ensures DumpText(m)[57 * r + k] == Line(m, r)[k]
    ensures DumpText(m)[57 * r + k + 1] == Line(m, r)[k + 1]
  {
    DumpAt(m, r, k);
    DumpAt(m, r, k + 1);
    assert 57 * r + (k + 1) == 57 * r + k + 1;
  }

  /** Cell `a` is byte `a % 16` of line `a / 16`, whose digits fit in the
      dump. */
  lemma CellPlace(a: nat)
    requires a < CpuBus.MemSize
    ensures 16 * (a / 16) + a % 16 == a && a / 16 < 4096 && a % 16 < 16
    ensures Col(a % 16) <= 54 && 57 * (a / 16) + Col(a % 16) + 2 <= 57 * 4096
  {
    var r, j := a / 16, a % 16;
    Split16(a);
    assert j / 4 <= 3;
    assert 57 * r <= 57 * 4095;
  }

  /** Two digits copied from `l` into `s` at offset `i`. */
  lemma HexAtMove(l: string, s: string, i: nat, k: nat, x: bv8)
    requires HexAt(l, k, x) && i + k + 2 <= |s|
    requires s[i + k] == l[k] && s[i + k + 1] == l[k + 1]
    ensures HexAt(s, i + k, x)
  {
  }

  lemma AddrAt(m: seq<bv8>, r: nat)
    requires |m| == CpuBus.MemSize && r < 4096
    ensures |DumpText(m)| == 57 * 4096
    ensures ReadHex4(DumpText(m), 57 * r) == 16 * r
  {
    HeadAt(m, r);
    ReadHex4Same(DumpText(m), 57 * r, Hex4(16 * r));
    Hex4RoundTrip(16 * r);
  }

  /** The address of line `r` opens it in the dump. */
  lemma HeadAt(m: seq<bv8>, r: nat)
    requires |m| == CpuBus.MemSize && r < 4096
    ensures |DumpText(m)| == 57 * 4096
    ensures DumpText(m)[57 * r..57 * r + 4] == Hex4(16 * r)
  {
    var s, l, i := DumpText(m), Line(m, r), 57 * r;
    LineLayout(m, r);
    forall k | 0 <= k < 4
      ensures s[i + k] == l[k]
    {
      DumpAt(m, r, k);
    }
    assert s[i..i + 4] == l[..4];
  }

  lemma ReadHex4Same(s: string, i: nat, h: string)
    requires i + 4 <= |s| && s[i..i + 4] == h
    ensures ReadHex4(s, i) == ReadHex4(h, 0)
  {
    assert s[i] == h[0] && s[i + 1] == h[1] && s[i + 2] == h[2] && s[i + 3] == h[3];
  }

  /** The dump reads back as the memory it was taken from, and each line
      starts with the address of its first cell. */
  lemma DumpRoundTrip(m: seq<bv8>)
    requires |m| == CpuBus.MemSize
    ensures |DumpText(m)| == 57 * 4096
    ensures forall a :: 0 <= a < CpuBus.MemSize ==> ReadDump(DumpText(m))[a] == m[a] as nat
    ensures forall r :: 0 <= r < 4096 ==> ReadHex4(DumpText(m), 57 * r) == 16 * r
  {
    forall a | 0 <= a < CpuBus.MemSize
      ensures ReadDump(DumpText(m))[a] == m[a] as nat
    {
      CellAt(m, a);
      Hex2RoundTrip(DumpText(m), 57 * (a / 16) + Col(a % 16), m[a]);
    }
    forall r | 0 <= r < 4096
      ensures ReadHex4(DumpText(m), 57 * r) == 16 * r
    {
      AddrAt(m, r);
    }
  }

  lemma Assoc4(a: string, b: string, c: string, d: string)
    ensures a + b + c + d == a + (b + c + d)
  {
  }

  /** One pass of `dump_hex`'s outer loop: the line for the cells from
      `i`. */
  method DumpLine(mem: array<bv8>, i: nat) returns (line: string)
    requires mem.Length == CpuBus.MemSize && i % 16 == 0 && i < CpuBus.MemSize
    ensures line == Line(mem[..], i / 16)
  {
    ghost var m := mem[..];
    line := Hex4(i) + ": ";
    ghost var head := line;
    assert LineBytes(m, i, 0) == "" && head + "" == head;
    var j := 0;
    while j < 16
      invariant 0 <= j <= 16 && i + 16 <= CpuBus.MemSize
      invariant line == head + LineBytes(m, i, j)
    {
      line := PutByte(line, mem[i + j], j);
      LineBytesSnoc(head, m, i, j);
      j := j + 1;
    }
    line := line + "\n";
    assert 16 * (i / 16) == i;
  }

  /** One pass of `dump_hex`'s inner loop: byte `x` as two digits, and
      the separator that follows byte `j`. */
  method PutByte(line: string, x: bv8, j: nat) returns (line': string)
    ensures line' == line + Hex2(x) + Sep(j)
  {
    line' := line + Hex2(x);
    if j != 15 {
      line' := line' + " ";
      if j % 4 == 3 {
        line' := line' + " ";
      }
    }
  }

  lemma LineBytesSnoc(head: string, m: seq<bv8>, i: nat, j: nat)
    requires i + j < |m| && j < 16
    ensures head + LineBytes(m, i, j) + Hex2(m[i + j]) + Sep(j) == head + LineBytes(m, i, j + 1)
  {
    Assoc4(head, LineBytes(m, i, j), Hex2(m[i + j]), Sep(j));
  }

  lemma Times16(r: nat)
    ensures (16 * r) % 16 == 0 && (16 * r) / 16 == r
  {
  }

  /** `dump_hex`, with its output returned. */
  method DumpHex(mem: array<bv8>) returns (s: string)
    requires mem.Length == CpuBus.MemSize
    ensures s == DumpText(mem[..])
  {
    ghost var ls := LinesOf(mem[..]);
    s := "";
    var i := 0;
    ghost var r := 0;
    while i < 0x10000
      invariant 0 <= r <= 4096 && i == 16 * r
      invariant s == Concat(ls[..r])
    {
      Times16(r);
      var line := DumpLine(mem, i);
      assert ls[..r + 1][..r] == ls[..r];
      s := s + line;
      i := i + 16;
      r := r + 1;
    }
    assert ls[..r] == ls;
  }
}
