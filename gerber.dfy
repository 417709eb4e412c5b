/** The RS-274X (Gerber) writer of board/board.cpp: a modal serialiser that
    turns polarity, aperture, move, draw and flash requests into command
    lines, remembering the last polarity, aperture and point so that it never
    repeats a command that would change nothing.

    Coordinates and diameters are integers in millionths of an inch: the
    writer prints every coordinate with exactly six fractional digits, so
    this is the resolution of its output. */
module Gerber {

  /** A point in micro-inches; equality is exact, as `point::operator==`. */
  datatype Point = Point(x: int, y: int)

  /** Why `err()` aborts the process. */
  datatype ErrCode = PointNotSet | ModeNotSet | ApertureNotSet

  /** The result of a drawing request: it goes ahead, or the process aborts. */
  datatype Outcome = Ok | Abort(code: ErrCode)

  const Million: nat := 1000000

  // ---------------------------------------------------------------------
  // Decimal text

  predicate IsDigit(c: char) { '0' <= c <= '9' }

  predicate IsDigits(s: string) { forall i :: 0 <= i < |s| ==> IsDigit(s[i]) }

  function DigitChar(d: nat): (c: char)
    requires d < 10
    ensures IsDigit(c) && (c - '0') as nat == d
  {
    ('0' as int + d) as char
  }

  function Pow10(n: nat): (r: nat)
    ensures r >= 1
  {
    if n == 0 then 1 else 10 * Pow10(n - 1)
  }

  /** The numeric value of a string of decimal digits, most significant first. */
  function Value(s: string): nat
    requires IsDigits(s)
  {
    if |s| == 0 then 0 else 10 * Value(s[..|s| - 1]) + (s[|s| - 1] - '0') as nat
  }

  /** `n` in decimal without leading zeros, as `ostream << int` prints it. */
  function Digits(n: nat): (s: string)
    ensures IsDigits(s) && 1 <= |s|
    ensures s[0] == '0' ==> n == 0
  {
    if n < 10 then [DigitChar(n)] else Digits(n / 10) + [DigitChar(n % 10)]
  }

  /** The `w` low decimal digits of `n`, zero-padded on the left. */
  function Pad(n: nat, w: nat): (s: string)
    ensures IsDigits(s) && |s| == w
  {
    if w == 0 then "" else Pad(n / 10, w - 1) + [DigitChar(n % 10)]
  }

  /** `setw(w) << setfill(c) << s`: left-pad `s` with `c` up to width `w`. */
  function ZeroPad(s: string, w: nat): (r: string)
    ensures |s| >= w ==> r == s
    ensures |s| < w ==> |r| == w && r[w - |s|..] == s
    decreases w - |s|
  {
    if |s| >= w then s else ZeroPad("0" + s, w)
  }

  lemma {:induction false} ValueAppend(a: string, b: string)
    requires IsDigits(a) && IsDigits(b)
    ensures IsDigits(a + b)
    ensures Value(a + b) == Value(a) * Pow10(|b|) + Value(b)
    decreases |b|
  {
    if |b| == 0 {
      assert a + b == a;
    } else {
      var b' := b[..|b| - 1];
      var c := (b[|b| - 1] - '0') as nat;
      var ab := a + b;
      assert ab[..|ab| - 1] == a + b';
      assert ab[|ab| - 1] == b[|b| - 1];
      ValueAppend(a, b');
      var va, vb, p := Value(a), Value(b'), Pow10(|b'|);
      assert Value(ab) == 10 * Value(a + b') + c;
      assert Value(b) == 10 * vb + c;
      assert Pow10(|b|) == 10 * p;
      MulStep(va, p, vb, c);
    }
  }

  lemma MulStep(va: nat, p: nat, vb: nat, c: nat)
    ensures 10 * (va * p + vb) + c == va * (10 * p) + (10 * vb + c)
  {
  }

  /** The digits `Num` writes for a magnitude `m` in millionths: the integer
      part without leading zeros, then exactly six fractional digits. */
  function Magnitude(m: nat): (s: string)
    ensures IsDigits(s) && |s| >= 7
  {
    Digits(m / Million) + Pad(m % Million, 6)
  }

  /** The digits of a magnitude spell it. */
  lemma MagnitudeValue(m: nat)
    ensures Value(Magnitude(m)) == m
  {
    var q, r := m / Million, m % Million;
    var ip, fp := Digits(q), Pad(r, 6);
    Pow10Six();
    ValueAppend(ip, fp);
    DigitsValue(q);
    PadValue(r, 6);
    assert Value(ip + fp) == q * Million + r;
  }

  /** Magnitude layout: the digits before the last six are the integer part,
      with no leading zero unless it is the only one; the last six are the
      fraction. */
  lemma MagnitudeLayout(m: nat)
    ensures var s := Magnitude(m);
      && Value(s[..|s| - 6]) == m / Million
      && Value(s[|s| - 6..]) == m % Million
      && (s[0] == '0' ==> |s| == 7)
  {
    var s := Magnitude(m);
    var ip, fp := Digits(m / Million), Pad(m % Million, 6);
    assert s[..|s| - 6] == ip;
    assert s[|s| - 6..] == fp;
    DigitsValue(m / Million);
    Pow10Six();
    PadValue(m % Million, 6);
  }

  lemma Pow10Six()
    ensures Pow10(6) == Million
  {
    assert Pow10(3) == 1000;
  }

  lemma {:induction false} DigitsValue(n: nat)
    ensures Value(Digits(n)) == n
  {
    if n >= 10 {
      DigitsValue(n / 10);
      var s := Digits(n);
      assert s[..|s| - 1] == Digits(n / 10);
      assert s[|s| - 1] == DigitChar(n % 10);
    }
  }

  lemma {:induction false} PadValue(n: nat, w: nat)
    requires n < Pow10(w)
    ensures Value(Pad(n, w)) == n
  {
    if w > 0 {
      assert n / 10 < Pow10(w - 1);
      PadValue(n / 10, w - 1);
      var s := Pad(n, w);
      assert s[..|s| - 1] == Pad(n / 10, w - 1);
      assert s[|s| - 1] == DigitChar(n % 10);
    }
  }

  /** Decimal text is injective: different numbers never print alike. */
  lemma DigitsInjective(m: nat, n: nat)
    requires Digits(m) == Digits(n)
    ensures m == n
  {
    DigitsValue(m);
    DigitsValue(n);
  }

  // ---------------------------------------------------------------------
  // Fixed-point numbers: gerber::num

  /** `gerber::num`: a `-` for a negative value, then the magnitude. */
  function Num(x: int): (s: string)
    ensures |s| >= 7
    ensures (s[0] == '-') <==> x < 0
  {
    (if x < 0 then "-" else "") + Magnitude(if x < 0 then -x else x)
  }

  /** Reading back the text of `Num`: an optional sign and then digits. */
  function ParseNum(s: string): (r: Option<int>)
  {
    if |s| > 0 && s[0] == '-' then
      (if IsDigits(s[1..]) && |s| > 1 then Some(0 - Value(s[1..])) else None)
    else if IsDigits(s) && |s| > 0 then Some(Value(s)) else None
  }

  datatype Option<T> = None | Some(value: T)

  /** The text of `Num` reads back as the number it was made from. */
  lemma NumRoundTrip(x: int)
    ensures ParseNum(Num(x)) == Some(x)
  {
    var m: nat := if x < 0 then -x else x;
    var t := Magnitude(m);
    MagnitudeValue(m);
    if x >= 0 {
      assert Num(x) == t;
      assert t[0] != '-';
    } else {
      assert Num(x)[1..] == t;
    }
  }

  // ---------------------------------------------------------------------
  // Coordinates: gerber::coord

  /** `gerber::coord`: the X (Y) token is left out when a point is set and
      that component is what the previous point had. */
  function Coord(pointSet: bool, p: Point, pt: Point): (s: string)
  {
    (if !pointSet || pt.x != p.x then "X" + Num(pt.x) else "")
    + (if !pointSet || pt.y != p.y then "Y" + Num(pt.y) else "")
  }

  /** The position of the first `c` in `s`, or `|s|` when there is none. */
  function Find(s: string, c: char): (i: nat)
    ensures i <= |s| && (i < |s| ==> s[i] == c)
    ensures forall j :: 0 <= j < i ==> s[j] != c
  {
    if |s| == 0 then 0 else if s[0] == c then 0 else 1 + Find(s[1..], c)
  }

  /** How a reader of the file recovers the new point from a coordinate text
      and the previous point: a present token gives the component, an absent
      one keeps the previous value. */
  function DecodeCoord(p: Point, s: string): Option<Point>
  {
    var y := Find(s, 'Y');
    var nx := XField(p.x, s[..y]);
    var ny := YField(p.y, s, y);
    if nx.Some? && ny.Some? then Some(Point(nx.value, ny.value)) else None
  }

  /** The X component read from the text before the `Y`. */
  function XField(px: int, xs: string): Option<int>
  {
    if xs == "" then Some(px) else if xs[0] == 'X' then ParseNum(xs[1..]) else None
  }

  /** The Y component read from the text after the `Y` at `y`. */
  function YField(py: int, s: string, y: nat): Option<int>
    requires y <= |s|
  {
    if y == |s| then Some(py) else ParseNum(s[y + 1..])
  }

  lemma NumHasNoY(x: int)
    ensures forall i :: 0 <= i < |Num(x)| ==> Num(x)[i] != 'Y'
  {
    var s := Num(x);
    var t := Magnitude(if x < 0 then -x else x);
    var k := if x < 0 then 1 else 0;
    assert s[k..] == t;
    forall i | 0 <= i < |s| ensures s[i] != 'Y' {
      if i >= k { assert s[i] == t[i - k]; }
    }
  }

  /** Compression loses nothing: with the previous point as context, every
      coordinate text decodes to the point that was written. */
  lemma CoordRoundTrip(pointSet: bool, p: Point, pt: Point)
    ensures pointSet ==> DecodeCoord(p, Coord(pointSet, p, pt)) == Some(pt)
    ensures !pointSet ==> forall q :: DecodeCoord(q, Coord(pointSet, p, pt)) == Some(pt)
  {
    var hx := !pointSet || pt.x != p.x;
    var hy := !pointSet || pt.y != p.y;
    if pointSet {
      DecodeTokens(p, hx, pt.x, hy, pt.y);
    } else {
      forall q ensures DecodeCoord(q, Coord(pointSet, p, pt)) == Some(pt) {
        DecodeTokens(q, hx, pt.x, hy, pt.y);
      }
    }
  }

  function Token(present: bool, axis: char, v: int): string
  {
    if present then [axis] + Num(v) else ""
  }

  /** An optional X token followed by an optional Y token decodes to the
      values they carry, the previous point filling in an absent one. */
  lemma DecodeTokens(q: Point, hx: bool, x: int, hy: bool, y: int)
    ensures DecodeCoord(q, Token(hx, 'X', x) + Token(hy, 'Y', y))
         == Some(Point(if hx then x else q.x, if hy then y else q.y))
  {
    var xs, ys := Token(hx, 'X', x), Token(hy, 'Y', y);
    var s := xs + ys;
    XTokenHasNoY(hx, x);
    FindAfter(xs, ys, 'Y');
    var i := Find(s, 'Y');
    assert s[..i] == xs;
    XFieldToken(q.x, hx, x);
    YFieldToken(q.y, hy, y, xs, s);
  }

  lemma XFieldToken(px: int, hx: bool, x: int)
    ensures XField(px, Token(hx, 'X', x)) == Some(if hx then x else px)
  {
    if hx {
      assert Token(hx, 'X', x)[1..] == Num(x);
      NumRoundTrip(x);
    }
  }

  lemma YFieldToken(py: int, hy: bool, y: int, xs: string, s: string)
    requires s == xs + Token(hy, 'Y', y)
    ensures YField(py, s, |xs|) == Some(if hy then y else py)
  {
    if hy {
      assert s[|xs| + 1..] == Num(y);
      NumRoundTrip(y);
    }
  }

  lemma XTokenHasNoY(hx: bool, x: int)
    ensures forall i :: 0 <= i < |Token(hx, 'X', x)| ==> Token(hx, 'X', x)[i] != 'Y'
  {
    if hx {
      var t := Token(hx, 'X', x);
      NumHasNoY(x);
      forall i | 0 <= i < |t| ensures t[i] != 'Y' {
        if i > 0 { assert t[i] == Num(x)[i - 1]; }
      }
    }
  }

  lemma {:induction false} FindAfter(a: string, b: string, c: char)
    requires forall i :: 0 <= i < |a| ==> a[i] != c
    requires b == [] || b[0] == c
    ensures Find(a + b, c) == |a|
  {
    if |a| > 0 {
      assert (a + b)[1..] == a[1..] + b;
      FindAfter(a[1..], b, c);
    } else {
      assert a + b == b;
    }
  }

  // ---------------------------------------------------------------------
  // Apertures

  /** The code allocated to the `k`-th distinct diameter: `D` and `k + 10`
      through `setw(2) << setfill('0')`. */
  function Code(k: nat): string
  {
    "D" + ZeroPad(Digits(k + 10), 2)
  }

  /** The width never pads: the number is at least 10, so a code is `D`
      and plain decimal; so distinct ranks give distinct codes. */
  lemma CodeInjective(j: nat, k: nat)
    requires Code(j) == Code(k)
    ensures j == k
  {
    CodeRankOf(j);
    CodeRankOf(k);
  }

  /** The rank a code was made from: its number less 10. */
  function CodeRank(c: string): int
  {
    if 1 <= |c| && IsDigits(c[1..]) then Value(c[1..]) - 10 else -1
  }

  lemma CodeRankOf(k: nat)
    ensures CodeRank(Code(k)) == k
  {
    var d := Digits(k + 10);
    CodeDigits(k);
    DropHead('D', d);
    DigitsValue(k + 10);
  }

  /** A code is `D` and the plain decimal of its rank plus 10. */
  lemma CodeDigits(k: nat)
    ensures Code(k) == "D" + Digits(k + 10)
  {
    DigitsLength2(k + 10);
  }

  lemma DropHead(c: char, s: string)
    ensures ([c] + s)[1..] == s
  {
  }

  lemma DigitsLength2(n: nat)
    requires n >= 10
    ensures |Digits(n)| >= 2
  {
    assert Digits(n) == Digits(n / 10) + [DigitChar(n % 10)];
  }

  /** Decimal text of a diameter in inches: integer part, then the fraction
      with its trailing zeros dropped (and no point when it is zero). */
  function Diameter(d: int): string
  {
    var m: nat := if d < 0 then -d else d;
    var f := TrimZeros(Pad(m % Million, 6));
    (if d < 0 then "-" else "") + Digits(m / Million) + (if f == "" then "" else "." + f)
  }

  function TrimZeros(s: string): (r: string)
    ensures |r| <= |s| && r == s[..|r|]
    ensures r == [] || r[|r| - 1] != '0'
    ensures forall i :: |r| <= i < |s| ==> s[i] == '0'
  {
    if |s| == 0 || s[|s| - 1] != '0' then s else TrimZeros(s[..|s| - 1])
  }

  /** The aperture definition line: a circle of diameter `d` under `code`. */
  function Declare(code: string, d: int): string
  {
    "%AD" + code + "C," + Diameter(d) + "*%"
  }

  /** The set of the first `n` codes. */
  ghost function Codes(n: nat): set<string>
  {
    set k | 0 <= k < n :: Code(k)
  }

  /** The aperture cache invariant: its `n` codes are exactly the
      first `n` codes, each belonging to one diameter. */
  ghost predicate CacheOk(m: map<int, string>)
  {
    && (forall d :: d in m ==> m[d] in Codes(|m|))
    && (forall d1, d2 :: d1 in m && d2 in m && d1 != d2 ==> m[d1] != m[d2])
  }

  /** Adding the next code for a new diameter keeps the cache invariant. */
  lemma CacheGrow(m: map<int, string>, d: int)
    requires CacheOk(m) && d !in m
    ensures CacheOk(m[d := Code(|m|)])
    ensures |m[d := Code(|m|)]| == |m| + 1
    ensures forall e :: e in m ==> exists k :: 0 <= k < |m| && m[e] == Code(k)
  {
    var m' := m[d := Code(|m|)];
    assert |m'| == |m| + 1;
    forall e | e in m' ensures m'[e] in Codes(|m'|) {
      if e != d {
        var k :| 0 <= k < |m| && m[e] == Code(k);
        assert Code(k) in Codes(|m'|);
      } else {
        assert Code(|m|) in Codes(|m'|);
      }
    }
    forall d1, d2 | d1 in m' && d2 in m' && d1 != d2 ensures m'[d1] != m'[d2] {
      if d1 == d || d2 == d {
        var e := if d1 == d then d2 else d1;
        var k :| 0 <= k < |m| && m[e] == Code(k);
        if m'[d1] == m'[d2] { CodeInjective(k, |m|); }
      }
    }
  }

  // ---------------------------------------------------------------------
  // The writer's state and its transitions

  /** The members of `class gerber` and the lines written so far. */
  datatype State = State(
    modeSet: bool, modeClear: bool, pointSet: bool, apertureSet: bool,
    p: Point, a: int, apertures: map<int, string>, out: seq<string>)

  const Header: seq<string> := ["G04 Output from Chad's Board Thing.*", "%FSLAX26Y26*%", "%MOIN*%"]

  /** The state right after construction: header written, nothing set. */
  const Initial: State := State(false, false, false, false, Point(0, 0), 0, map[], Header)

  /** What `draw` and `flash` check, in the order they check it. */
  function Check(s: State): (r: Outcome)
    ensures r == Ok <==> s.pointSet && s.modeSet && s.apertureSet
  {
    if !s.pointSet then Abort(PointNotSet)
    else if !s.modeSet then Abort(ModeNotSet)
    else if !s.apertureSet then Abort(ApertureNotSet)
    else Ok
  }

  predicate Ready(s: State) { s.pointSet && s.modeSet && s.apertureSet }

  /** The writer's invariant: a sound cache holding the selected aperture. */
  ghost predicate Wf(s: State)
  {
    CacheOk(s.apertures) && (s.apertureSet ==> s.a in s.apertures)
  }

  /** Moves, draws and flashes leave the polarity, the selected aperture and
      the cache as they were. */
  predicate SameSetup(s: State, r: State)
  {
    && r.modeSet == s.modeSet && r.modeClear == s.modeClear
    && r.apertureSet == s.apertureSet && r.a == s.a && r.apertures == s.apertures
  }

  /** `gerber::set_dark`: writes `%LPD*%` unless the polarity is already dark. */
  function SetDarkF(s: State): (r: State)
    ensures r.modeSet && !r.modeClear
    ensures r.out == s.out || r.out == s.out + ["%LPD*%"]
    ensures r.out != s.out <==> !s.modeSet || s.modeClear
    ensures r == s.(modeSet := true, modeClear := false, out := r.out)
  {
    var emit := !s.modeSet || (s.modeSet && s.modeClear);
    s.(out := s.out + (if emit then ["%LPD*%"] else []), modeSet := true, modeClear := false)
  }

  /** `gerber::set_clear`: writes `%LPC*%` unless the polarity is already clear. */
  function SetClearF(s: State): (r: State)
    ensures r.modeSet && r.modeClear
    ensures r.out == s.out || r.out == s.out + ["%LPC*%"]
    ensures r.out != s.out <==> !s.modeSet || !s.modeClear
    ensures r == s.(modeSet := true, modeClear := true, out := r.out)
  {
    var emit := !s.modeSet || (s.modeSet && !s.modeClear);
    s.(out := s.out + (if emit then ["%LPC*%"] else []), modeSet := true, modeClear := true)
  }

  /** `gerber::set_aperture`. */
  function SetApertureF(s: State, d: int): (r: State)
    requires Wf(s)
    ensures Wf(r)
    ensures r.apertureSet && r.a == d && d in r.apertures
    ensures r == s.(apertureSet := true, a := d, apertures := r.apertures, out := r.out)
  {
    if s.apertureSet && s.a == d then s
    else
      var isNew := d !in s.apertures;
      var m := if isNew then s.apertures[d := Code(|s.apertures|)] else s.apertures;
      assert isNew ==> CacheOk(m) by { if isNew { CacheGrow(s.apertures, d); } }
      s.(apertureSet := true, a := d, apertures := m,
         out := s.out + (if isNew then [Declare(m[d], d)] else []) + [m[d] + "*"])
  }

  /** `gerber::move`: the point counts as set before the coordinate is written. */
  function MoveF(s: State, to: Point): (r: State)
    ensures r.pointSet && r.p == to && SameSetup(s, r)
    ensures r.out == s.out + [Coord(true, s.p, to) + "D02*"]
  {
    s.(pointSet := true, out := s.out + [Coord(true, s.p, to) + "D02*"], p := to)
  }

  /** `gerber::draw(to)` once its checks have passed. */
  function DrawF(s: State, to: Point): (r: State)
    requires Ready(s)
    ensures Ready(r) && r.p == to && SameSetup(s, r)
    ensures r.out == s.out + [Coord(true, s.p, to) + "D01*"]
  {
    s.(out := s.out + [Coord(s.pointSet, s.p, to) + "D01*"], p := to)
  }

  /** `gerber::draw(from, to)`: a move first only when the pen is elsewhere. */
  function DrawFromF(s: State, from: Point, to: Point): (r: State)
    requires s.modeSet && s.apertureSet
    ensures Ready(r) && r.p == to && SameSetup(s, r)
  {
    var s1 := if !s.pointSet || from != s.p then MoveF(s, from) else s;
    DrawF(s1, to)
  }

  /** `gerber::flash()` once its checks have passed. */
  function FlashF(s: State): (r: State)
    requires Ready(s)
    ensures r == s.(out := s.out + ["D03*"])
  {
    s.(out := s.out + ["D03*"])
  }

  /** `gerber::flash(pt)`: coordinate and `D03*` on one line. */
  function FlashAtF(s: State, pt: Point): (r: State)
    requires s.modeSet && s.apertureSet
    ensures Ready(r) && r.p == pt && SameSetup(s, r)
    ensures r.out == s.out + [Coord(true, s.p, pt) + "D03*"]
  {
    s.(pointSet := true, out := s.out + [Coord(true, s.p, pt) + "D03*"], p := pt)
  }

  // ---------------------------------------------------------------------
  // Properties of the transitions

  /** Setting the same polarity twice writes it at most once. */
  lemma PolarityIdempotent(s: State)
    ensures SetDarkF(SetDarkF(s)) == SetDarkF(s)
    ensures SetClearF(SetClearF(s)) == SetClearF(s)
  {
  }

  /** Selecting the aperture just selected writes nothing. */
  lemma ApertureIdempotent(s: State, d: int)
    requires Wf(s)
    ensures SetApertureF(SetApertureF(s, d), d) == SetApertureF(s, d)
  {
  }

  /** The lines `set_aperture(d)` writes: nothing when `d` is selected;
      a select line alone when `d` is cached; a definition under the next
      code, then its select line, when `d` is new. The new code is above
      every code in use. */
  lemma ApertureLines(s: State, d: int)
    requires Wf(s)
    ensures var r := SetApertureF(s, d);
      && (s.apertureSet && s.a == d ==> r.out == s.out)
      && (!(s.apertureSet && s.a == d) && d in s.apertures ==>
            r.out == s.out + [s.apertures[d] + "*"] && r.apertures == s.apertures)
      && (d !in s.apertures ==>
            var c := Code(|s.apertures|);
            && r.out == s.out + [Declare(c, d), c + "*"]
            && r.apertures == s.apertures[d := c]
            && c !in s.apertures.Values
            && forall e :: e in s.apertures ==> exists k :: 0 <= k < |s.apertures| && s.apertures[e] == Code(k))
  {
    if d !in s.apertures {
      var c := Code(|s.apertures|);
      CacheGrow(s.apertures, d);
      forall e | e in s.apertures ensures s.apertures[e] != c {
        var k :| 0 <= k < |s.apertures| && s.apertures[e] == Code(k);
        if s.apertures[e] == c { CodeInjective(k, |s.apertures|); }
      }
    }
  }

  /** A cached diameter is never declared twice: whatever order the
      apertures are requested in, the definition lines written for
      distinct diameters carry distinct codes. */
  lemma CodesDistinct(m: map<int, string>, d1: int, d2: int)
    requires CacheOk(m) && d1 in m && d2 in m && d1 != d2
    ensures m[d1] != m[d2]
  {
  }

  /** `draw` goes ahead only with point, polarity and aperture all set, and
      reports the first of them that is missing. */
  lemma DrawCheckOrder(s: State)
    ensures Check(s) == Abort(PointNotSet) <==> !s.pointSet
    ensures Check(s) == Abort(ModeNotSet) <==> s.pointSet && !s.modeSet
    ensures Check(s) == Abort(ApertureNotSet) <==> s.pointSet && s.modeSet && !s.apertureSet
  {
  }

  /** A drawn line leaves out the unchanged coordinate. */
  lemma DrawCompresses(s: State, to: Point)
    requires Ready(s)
    ensures to.x == s.p.x ==>
      (DrawF(s, to).out[|s.out|] == Coord(true, s.p, to) + "D01*"
       && Coord(true, s.p, to) == (if to.y == s.p.y then "" else "Y" + Num(to.y)))
    ensures to.y == s.p.y ==> Coord(true, s.p, to) == (if to.x == s.p.x then "" else "X" + Num(to.x))
  {
  }

  /** Because `move` marks the point set before writing, even the first move
      is compared with the initial point (0, 0): a first move to x = 0 writes
      no X token. */
  lemma FirstMoveComparesWithOrigin(y: int)
    requires y != 0
    ensures MoveF(Initial, Point(0, y)).out == Header + ["Y" + Num(y) + "D02*"]
  {
    assert Coord(true, Point(0, 0), Point(0, y)) == "Y" + Num(y);
  }

  /** `draw(from, to)` moves only when the pen is not already at `from`. */
  lemma DrawFromMovesOnlyWhenNeeded(s: State, from: Point, to: Point)
    requires s.modeSet && s.apertureSet
    ensures s.pointSet && from == s.p ==> DrawFromF(s, from, to) == DrawF(s, to)
    ensures !s.pointSet || from != s.p ==>
      DrawFromF(s, from, to).out == s.out + [Coord(true, s.p, from) + "D02*", Coord(true, from, to) + "D01*"]
  {
  }

  // ---------------------------------------------------------------------
  // The writer object

  /** `class gerber`; its stream is the sequence of lines `out`. */
  class Emitter {
    var modeSet: bool
    var modeClear: bool
    var pointSet: bool
    var apertureSet: bool
    var p: Point
    var a: int
    var apertures: map<int, string>
    var out: seq<string>

    ghost function Model(): State
      reads this
    {
      State(modeSet, modeClear, pointSet, apertureSet, p, a, apertures, out)
    }

    ghost predicate Valid()
      reads this
    {
      Wf(Model())
    }

    /** The constructor and `init()`: the three header lines, all flags false. */
    constructor ()
      ensures Valid() && Model() == Initial
    {
      modeSet, modeClear, pointSet, apertureSet := false, false, false, false;
      p, a, apertures := Point(0, 0), 0, map[];
      out := [];
      new;
      out := out + ["G04 Output from Chad's Board Thing.*"];
      out := out + ["%FSLAX26Y26*%"];
      out := out + ["%MOIN*%"];
    }

    /** The destructor: the end-of-job line. */
    method Close()
      modifies this
      ensures Model() == old(Model()).(out := old(out) + ["M02*"])
    {
      out := out + ["M02*"];
    }

    method SetDark()
      requires Valid()
      modifies this
      ensures Valid() && Model() == SetDarkF(old(Model()))
    {
      if !modeSet || (modeSet && modeClear) {
        out := out + ["%LPD*%"];
      }
      modeSet := true;
      modeClear := false;
    }

    method SetClear()
      requires Valid()
      modifies this
      ensures Valid() && Model() == SetClearF(old(Model()))
    {
      if !modeSet || (modeSet && !modeClear) {
        out := out + ["%LPC*%"];
      }
      modeSet := true;
      modeClear := true;
    }

    method SetAperture(d: int)
      requires Valid()
      modifies this
      ensures Valid() && Model() == SetApertureF(old(Model()), d)
    {
      if apertureSet && a == d {
        return;
      }
      ghost var s0 := Model();
      var isNew := d !in apertures;
      var m := if isNew then apertures[d := Code(|apertures|)] else apertures;
      var decl := if isNew then [Declare(m[d], d)] else [];
      apertureSet, a, apertures, out := true, d, m, out + decl + [m[d] + "*"];
      assert Model() == SetApertureF(s0, d);
    }

    method Move(to: Point)
      requires Valid()
      modifies this
      ensures Valid() && Model() == MoveF(old(Model()), to)
    {
      pointSet := true;
      var c := Coord(pointSet, p, to);
      out := out + [c + "D02*"];
      p := to;
    }

    /** `draw(to)`: aborts, writing nothing, unless point, polarity and
        aperture are all set. */
    method Draw(to: Point) returns (r: Outcome)
      requires Valid()
      modifies this
      ensures Valid() && r == Check(old(Model()))
      ensures r == Ok ==> Model() == DrawF(old(Model()), to)
      ensures r != Ok ==> Model() == old(Model())
    {
      if !pointSet { return Abort(PointNotSet); }
      if !modeSet { return Abort(ModeNotSet); }
      if !apertureSet { return Abort(ApertureNotSet); }
      var c := Coord(pointSet, p, to);
      out := out + [c + "D01*"];
      p := to;
      r := Ok;
    }

    method DrawFrom(from: Point, to: Point) returns (r: Outcome)
      requires Valid()
      modifies this
      ensures Valid()
      ensures r == Ok <==> old(modeSet && apertureSet)
      ensures r == Ok ==> Model() == DrawFromF(old(Model()), from, to)
      ensures r != Ok ==>
        (Model() == if !old(pointSet) || from != old(p) then MoveF(old(Model()), from) else old(Model()))
    {
      if !pointSet || from != p {
        Move(from);
      }
      r := Draw(to);
    }

    method Flash() returns (r: Outcome)
      requires Valid()
      modifies this
      ensures Valid() && r == Check(old(Model()))
      ensures r == Ok ==> Model() == FlashF(old(Model()))
      ensures r != Ok ==> Model() == old(Model())
    {
      if !pointSet { return Abort(PointNotSet); }
      if !modeSet { return Abort(ModeNotSet); }
      if !apertureSet { return Abort(ApertureNotSet); }
      out := out + ["D03*"];
      r := Ok;
    }

    /** `flash(pt)`: the point is set first, so only polarity or aperture
        can be missing. */
    method FlashAt(pt: Point) returns (r: Outcome)
      requires Valid()
      modifies this
      ensures Valid()
      ensures r == Check(old(Model()).(pointSet := true))
      ensures r == Ok ==> Model() == FlashAtF(old(Model()), pt)
      ensures r != Ok ==> Model() == old(Model())
    {
      if !modeSet { return Abort(ModeNotSet); }
      if !apertureSet { return Abort(ApertureNotSet); }
      pointSet := true;
      var c := Coord(pointSet, p, pt);
      out := out + [c + "D03*"];
      p := pt;
      r := Ok;
    }
  }
}
