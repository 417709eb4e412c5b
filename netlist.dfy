/** netlist/netlist_map.cpp: reading the pin map. Each line of the map
    names a CHDL module between `<` and `>`, then lists, for each of the
    part's pins in order, what the pin is: `vdd`, `gnd`, `nc` or the
    number of the module's pin it carries. The reader records, per
    device, the positions of its supply pins and, for each module pin,
    the position of the part's pin that carries it.

    The character stream and `operator>>` are not modelled: a line comes
    as the text holding the module name and its pin words already split. */
module Netlist {

  // ---------------------------------------------------------------------
  // `read_chdl_module`

  /** The position of the first `c` in `s`, or `|s|` if there is none. */
  function IndexOf(s: seq<char>, c: char): (k: nat)
    ensures k <= |s| && (k < |s| ==> s[k] == c)
    ensures forall j :: 0 <= j < k ==> s[j] != c
  {
    if s == [] then 0
    else if s[0] == c then 0
    else 1 + IndexOf(s[1..], c)
  }

  /** What `read_chdl_module` returns: everything up to and including the
      first `<` is skipped, then the characters up to the next `>` (or to
      the end of the input) are collected. */
  function ChdlModule(s: seq<char>): string
  {
    var i := IndexOf(s, '<');
    if i == |s| then []
    else
      var t := s[i + 1..];
      t[..IndexOf(t, '>')]
  }

  /** The name is exactly what lies between the first `<` and the next
      `>`; it never holds `>`; with no `<` at all it is empty. */
  lemma ChdlModuleBetween(a: seq<char>, r: seq<char>, b: seq<char>)
    requires '<' !in a && '>' !in r
    ensures ChdlModule(a + ['<'] + r + ['>'] + b) == r
    ensures ChdlModule(a) == []
    ensures '>' !in ChdlModule(a + ['<'] + r + ['>'] + b)
  {
    var s := a + ['<'] + r + ['>'] + b;
    IndexPast(a, ['<'] + r + ['>'] + b, '<');
    assert s == a + (['<'] + r + ['>'] + b);
    var t := s[|a| + 1..];
    assert t == r + (['>'] + b);
    IndexPast(r, ['>'] + b, '>');
    assert t[..|r|] == r;
    IndexAbsent(a, '<');
  }

  lemma {:induction false} IndexPast(a: seq<char>, b: seq<char>, c: char)
    requires c !in a && b != [] && b[0] == c
    ensures IndexOf(a + b, c) == |a|
  {
    if a == [] {
      assert a + b == b;
    } else {
      assert (a + b)[1..] == a[1..] + b;
      IndexPast(a[1..], b, c);
    }
  }

  lemma {:induction false} IndexAbsent(a: seq<char>, c: char)
    requires c !in a
    ensures IndexOf(a, c) == |a|
  {
    if a != [] {
      IndexAbsent(a[1..], c);
    }
  }

  /** The byte `(char)EOF` that the second loop of `read_chdl_module` stores
      when the input ends before a `>`. */
  const EofChar: char := 'ÿ'

  /** `read_chdl_module` as written: when the input ends after a `<` but
      before a `>`, the failed `get()` still passes the `!= '>'` test, and
      its `(char)EOF` is appended to the name. */
  function ChdlModuleAsWritten(s: seq<char>): string
  {
    var i := IndexOf(s, '<');
    if i == |s| then []
    else
      var t := s[i + 1..];
      var j := IndexOf(t, '>');
      if j == |t| then t + [EofChar] else t[..j]
  }

  /** "<ab" (an unterminated module name) reads as "ab" followed by the
      stray byte, where "ab" is meant. */
  lemma ChdlModuleUnterminated()
    ensures ChdlModuleAsWritten("<ab") == "ab" + [EofChar]
    ensures ChdlModule("<ab") == "ab"
  {
    assert IndexOf("<ab", '<') == 0;
    assert "<ab"[1..] == "ab";
    assert IndexOf("b", '>') == 1;
    assert IndexOf("ab", '>') == 2;
  }

  /** `read_chdl_module`, with the stray byte left out: the two loops of
      the source, over the input as a sequence. */
  method ReadChdlModule(s: seq<char>) returns (r: string)
    ensures r == ChdlModule(s)
  {
    var i := 0;
    while i < |s| && s[i] != '<'
      invariant 0 <= i <= |s| && forall j :: 0 <= j < i ==> s[j] != '<'
    {
      i := i + 1;
    }
    IndexFound(s, '<', i);
    r := [];
    if i < |s| {
      var t := s[i + 1..];
      var j := 0;
      while j < |t| && t[j] != '>'
        invariant 0 <= j <= |t| && r == t[..j]
        invariant forall k :: 0 <= k < j ==> t[k] != '>'
      {
        r := r + [t[j]];
        j := j + 1;
      }
      IndexFound(t, '>', j);
    }
  }

  lemma IndexFound(s: seq<char>, c: char, i: nat)
    requires i <= |s| && (i < |s| ==> s[i] == c) && forall j :: 0 <= j < i ==> s[j] != c
    ensures IndexOf(s, c) == i
  {
    var k := IndexOf(s, c);
    assert k < |s| ==> s[k] == c;
    assert i < |s| ==> s[i] == c;
  }

  // ---------------------------------------------------------------------
  // Pin words

  /** One word of a pin-map line, as `read_pmap` tells them apart. */
  datatype Token = Vdd | Gnd | Nc | Num(n: int) | Bad

  predicate IsDigit(c: char) { '0' <= c <= '9' }

  /** The number of leading digits of `s`. */
  function DigitRun(s: string): (k: nat)
    ensures k <= |s| && forall j :: 0 <= j < k ==> IsDigit(s[j])
    ensures k < |s| ==> !IsDigit(s[k])
  {
    if s == [] || !IsDigit(s[0]) then 0 else 1 + DigitRun(s[1..])
  }

  /** The value of a run of decimal digits. */
  function DecValue(ds: string): nat
    requires forall j :: 0 <= j < |ds| ==> IsDigit(ds[j])
  {
    if ds == [] then 0
    else
      assert IsDigit(ds[|ds| - 1]);
      DecValue(ds[..|ds| - 1]) * 10 + (ds[|ds| - 1] as int - '0' as int)
  }

  const IntMin: int := -0x8000_0000
  const IntMax: int := 0x7fff_ffff

  /** C++11 `>>` into an `int` stores the nearest bound when the value
      read does not fit. */
  function Saturate(v: int): (r: int)
    ensures IntMin <= r <= IntMax
    ensures IntMin <= v <= IntMax ==> r == v
    ensures v > IntMax ==> r == IntMax
    ensures v < IntMin ==> r == IntMin
  {
    if v > IntMax then IntMax else if v < IntMin then IntMin else v
  }

  /** `istringstream(pin) >> pnum`: an optional sign, then the longest run
      of digits, saturated to the range of `int`; nothing is read when no
      digit follows. */
  function LeadingInt(s: string): (r: Option<int>)
  {
    var neg := |s| > 0 && s[0] == '-';
    var body := if |s| > 0 && (s[0] == '-' || s[0] == '+') then s[1..] else s;
    var k := DigitRun(body);
    if k == 0 then None
    else
      var v: int := DecValue(body[..k]);
      Some(Saturate(if neg then -v else v))
  }

  datatype Option<T> = None | Some(value: T)

  /** The chain of tests in `read_pmap`'s inner loop. */
  function Classify(pin: string): Token
  {
    if pin == "vdd" then Vdd
    else if pin == "gnd" then Gnd
    else if pin == "nc" then Nc
    else match LeadingInt(pin)
      case Some(n) => Num(n)
      case None => Bad
  }

  /** A word of digits alone is the pin of that number, with no sign it
      is never negative, and a word that starts with neither a digit nor a
      sign (other than the three names) is rejected. */
  lemma ClassifyDigits(pin: string)
    requires pin != [] && forall j :: 0 <= j < |pin| ==> IsDigit(pin[j])
    ensures Classify(pin) == Num(Saturate(DecValue(pin)))
    ensures DecValue(pin) <= IntMax ==> Classify(pin) == Num(DecValue(pin))
    ensures DecValue(pin) > IntMax ==> Classify(pin) == Num(IntMax)
  {
    assert pin[0] != '-' && pin[0] != '+';
    assert pin != "vdd" && pin != "gnd" && pin != "nc" by {
      assert IsDigit(pin[0]);
    }
    assert DigitRun(pin) == |pin| by {
      DigitRunAll(pin);
    }
    assert pin[..|pin|] == pin;
  }

  lemma {:induction false} DigitRunAll(s: string)
    requires forall j :: 0 <= j < |s| ==> IsDigit(s[j])
    ensures DigitRun(s) == |s|
  {
    if s != [] {
      DigitRunAll(s[1..]);
    }
  }

  lemma ClassifyNoDigit(pin: string)
    requires pin != [] && pin != "vdd" && pin != "gnd" && pin != "nc"
    requires !IsDigit(pin[0]) && pin[0] != '-' && pin[0] != '+'
    ensures Classify(pin) == Bad
  {
  }

  // ---------------------------------------------------------------------
  // The maps

  /** `vdd`, `gnd` and `pinmap`. */
  datatype Maps = Maps(vdd: map<string, set<int>>, gnd: map<string, set<int>>, pinmap: map<string, seq<int>>)

  /** `m[k]` for a `std::map`, read without inserting. */
  function Rail(m: map<string, set<int>>, k: string): set<int>
  {
    if k in m then m[k] else {}
  }

  function Pins(m: map<string, seq<int>>, k: string): seq<int>
  {
    if k in m then m[k] else []
  }

  /** `resize(n)` growing a vector: the new cells are zero. */
  function Grow(v: seq<int>, n: nat): (w: seq<int>)
    requires n >= |v|
    ensures |w| == n && w[..|v|] == v && forall k :: |v| <= k < n ==> w[k] == 0
  {
    v + seq(n - |v|, _ => 0)
  }

  /** One word at position `idx`: `None` where the source goes wrong — a
      word that is no number leaves `pnum` at 0 and indexes cell -1, and a
      negative number compares as a huge unsigned size and fails to
      resize. */
  function TokenF(m: Maps, dev: string, t: Token, idx: int): Option<Maps>
  {
    match t
    case Vdd => Some(m.(vdd := m.vdd[dev := Rail(m.vdd, dev) + {idx}]))
    case Gnd => Some(m.(gnd := m.gnd[dev := Rail(m.gnd, dev) + {idx}]))
    case Nc => Some(m)
    case Num(n) =>
      if n <= 0 then None
      else
        var v := Pins(m.pinmap, dev);
        var w := if n > |v| then Grow(v, n) else v;
        Some(m.(pinmap := m.pinmap[dev := w[n - 1 := idx]]))
    case Bad => None
  }

  /** What a line's words leave behind, and whether all were read. */
  datatype LineResult = LineResult(m: Maps, ok: bool)

  /** The words of one line for device `dev`, the word at index `i` being
      at position `i + 1`; reading stops at the first word that fails. */
  function LineF(m: Maps, dev: string, toks: seq<Token>): LineResult
    decreases |toks|
  {
    if toks == [] then LineResult(m, true)
    else
      var pre := LineF(m, dev, toks[..|toks| - 1]);
      if !pre.ok then pre
      else match TokenF(pre.m, dev, toks[|toks| - 1], |toks|)
        case None => LineResult(pre.m, false)
        case Some(m') => LineResult(m', true)
  }

  predicate Good(t: Token) { !t.Bad? && (t.Num? ==> t.n >= 1) }

  /** The positions on the line of the words equal to `t`. */
  function Positions(toks: seq<Token>, t: Token): set<int>
  {
    set i | 0 <= i < |toks| && toks[i] == t :: i + 1
  }

  /** The position of the last word naming module pin `n`, or 0. */
  function LastPos(toks: seq<Token>, n: int): (p: nat)
    ensures p <= |toks|
    decreases |toks|
  {
    if toks == [] then 0
    else if toks[|toks| - 1] == Num(n) then |toks|
    else LastPos(toks[..|toks| - 1], n)
  }

  /** The largest module pin number on the line, or 0. */
  function MaxPin(toks: seq<Token>): nat
    decreases |toks|
  {
    if toks == [] then 0
    else
      var m := MaxPin(toks[..|toks| - 1]);
      var t := toks[|toks| - 1];
      if t.Num? && t.n > m then t.n else m
  }

  /** What the vector of `dev` should hold after the line: as long as the
      longest of the old vector and the largest pin number; each named
      cell holds the position of the last word naming it, the others what
      they held, or 0 if new. */
  function Expected(v: seq<int>, toks: seq<Token>): (w: seq<int>)
  {
    var len := if |v| >= MaxPin(toks) then |v| else MaxPin(toks);
    seq(len, k requires 0 <= k < len =>
      if LastPos(toks, k + 1) > 0 then LastPos(toks, k + 1)
      else if k < |v| then v[k] else 0)
  }

  predicate HasNum(toks: seq<Token>) { exists i :: 0 <= i < |toks| && toks[i].Num? }

  /** A line is read through exactly when none of its words fails. */
  lemma {:induction false} LineOk(m: Maps, dev: string, toks: seq<Token>)
    ensures LineF(m, dev, toks).ok <==> forall i :: 0 <= i < |toks| ==> Good(toks[i])
    decreases |toks|
  {
    if toks != [] {
      var init := toks[..|toks| - 1];
      LineOk(m, dev, init);
      assert forall i :: 0 <= i < |init| ==> init[i] == toks[i];
    }
  }

  /** Reading one more word: `LineF` unfolded once. */
  lemma LineSnoc(m: Maps, dev: string, init: seq<Token>, t: Token)
    ensures var pre := LineF(m, dev, init);
      LineF(m, dev, init + [t]) ==
        if !pre.ok then pre
        else match TokenF(pre.m, dev, t, |init| + 1)
          case None => LineResult(pre.m, false)
          case Some(m') => LineResult(m', true)
  {
    var toks := init + [t];
    assert toks[..|toks| - 1] == init;
  }

  /** A line read through: the position of every `vdd` word is added to
      `vdd[dev]`; the device gets an entry only if such a word occurs; no
      other device changes. */
  lemma {:induction false} LineVdd(m: Maps, dev: string, toks: seq<Token>)
    requires LineF(m, dev, toks).ok
    ensures LineF(m, dev, toks).m.vdd ==
      if Vdd in toks then m.vdd[dev := Rail(m.vdd, dev) + Positions(toks, Vdd)] else m.vdd
    decreases |toks|
  {
    if toks != [] {
      var init := toks[..|toks| - 1];
      var t := toks[|toks| - 1];
      assert toks == init + [t];
      LineSnoc(m, dev, init, t);
      LineVdd(m, dev, init);
      VddStep(m, dev, init, t);
    }
  }

  lemma VddStep(m: Maps, dev: string, init: seq<Token>, t: Token)
    requires LineF(m, dev, init + [t]).ok
    requires LineF(m, dev, init).ok
    requires LineF(m, dev, init).m.vdd ==
      if Vdd in init then m.vdd[dev := Rail(m.vdd, dev) + Positions(init, Vdd)] else m.vdd
    ensures LineF(m, dev, init + [t]).m.vdd ==
      if Vdd in init + [t] then m.vdd[dev := Rail(m.vdd, dev) + Positions(init + [t], Vdd)] else m.vdd
  {
    var toks := init + [t];
    LineSnoc(m, dev, init, t);
    PositionsSnoc(init, t, Vdd);
    var pre := LineF(m, dev, init);
    assert Rail(pre.m.vdd, dev) == Rail(m.vdd, dev) + Positions(init, Vdd) by {
      if Vdd !in init {
        assert Positions(init, Vdd) == {};
      }
    }
    if t == Vdd {
      var x := Rail(m.vdd, dev) + Positions(toks, Vdd);
      assert TokenF(pre.m, dev, t, |toks|).value.vdd == pre.m.vdd[dev := Rail(pre.m.vdd, dev) + {|toks|}];
      assert Rail(pre.m.vdd, dev) + {|toks|} == x;
      assert pre.m.vdd[dev := x] == m.vdd[dev := x];
    } else {
      assert LineF(m, dev, toks).m.vdd == pre.m.vdd;
      assert Positions(toks, Vdd) == Positions(init, Vdd);
      assert Vdd in toks <==> Vdd in init;
    }
  }


  /** The same for `gnd` words and `gnd[dev]`. */
  lemma {:induction false} LineGnd(m: Maps, dev: string, toks: seq<Token>)
    requires LineF(m, dev, toks).ok
    ensures LineF(m, dev, toks).m.gnd ==
      if Gnd in toks then m.gnd[dev := Rail(m.gnd, dev) + Positions(toks, Gnd)] else m.gnd
    decreases |toks|
  {
    if toks != [] {
      var init := toks[..|toks| - 1];
      var t := toks[|toks| - 1];
      assert toks == init + [t];
      LineSnoc(m, dev, init, t);
      LineGnd(m, dev, init);
      GndStep(m, dev, init, t);
    }
  }

  lemma GndStep(m: Maps, dev: string, init: seq<Token>, t: Token)
    requires LineF(m, dev, init + [t]).ok
    requires LineF(m, dev, init).ok
    requires LineF(m, dev, init).m.gnd ==
      if Gnd in init then m.gnd[dev := Rail(m.gnd, dev) + Positions(init, Gnd)] else m.gnd
    ensures LineF(m, dev, init + [t]).m.gnd ==
      if Gnd in init + [t] then m.gnd[dev := Rail(m.gnd, dev) + Positions(init + [t], Gnd)] else m.gnd
  {
    var toks := init + [t];
    LineSnoc(m, dev, init, t);
    PositionsSnoc(init, t, Gnd);
    var pre := LineF(m, dev, init);
    assert Rail(pre.m.gnd, dev) == Rail(m.gnd, dev) + Positions(init, Gnd) by {
      if Gnd !in init {
        assert Positions(init, Gnd) == {};
      }
    }
    if t == Gnd {
      var x := Rail(m.gnd, dev) + Positions(toks, Gnd);
      assert TokenF(pre.m, dev, t, |toks|).value.gnd == pre.m.gnd[dev := Rail(pre.m.gnd, dev) + {|toks|}];
      assert Rail(pre.m.gnd, dev) + {|toks|} == x;
      assert pre.m.gnd[dev := x] == m.gnd[dev := x];
    } else {
      assert LineF(m, dev, toks).m.gnd == pre.m.gnd;
      assert Positions(toks, Gnd) == Positions(init, Gnd);
      assert Gnd in toks <==> Gnd in init;
    }
  }


  lemma PositionsSnoc(init: seq<Token>, t: Token, u: Token)
    ensures Positions(init + [t], u) == Positions(init, u) + (if t == u then {|init| + 1} else {})
  {
    var toks := init + [t];
    forall p | p in Positions(toks, u)
      ensures p in Positions(init, u) + (if t == u then {|init| + 1} else {})
    {
      var i :| 0 <= i < |toks| && toks[i] == u && p == i + 1;
      if i < |init| {
        assert init[i] == u;
      }
    }
    forall p | p in Positions(init, u)
      ensures p in Positions(toks, u)
    {
      var i :| 0 <= i < |init| && init[i] == u && p == i + 1;
      assert toks[i] == u;
    }
    if t == u {
      assert toks[|init|] == u;
    }
  }

  lemma HasNumSnoc(init: seq<Token>, t: Token)
    ensures HasNum(init + [t]) <==> HasNum(init) || t.Num?
  {
    var toks := init + [t];
    if HasNum(init) {
      var i :| 0 <= i < |init| && init[i].Num?;
      assert toks[i] == init[i];
    }
    if t.Num? {
      assert toks[|init|] == t;
    }
    if HasNum(toks) {
      var i :| 0 <= i < |toks| && toks[i].Num?;
      if i < |init| {
        assert init[i] == toks[i];
      }
    }
  }

  /** A line read through: `pinmap[dev]` becomes `Expected` of what it
      held, an entry is made only if a number occurs, and no other device
      changes. */
  lemma {:induction false} LinePins(m: Maps, dev: string, toks: seq<Token>)
    requires LineF(m, dev, toks).ok
    ensures LineF(m, dev, toks).m.pinmap ==
      if HasNum(toks) then m.pinmap[dev := Expected(Pins(m.pinmap, dev), toks)] else m.pinmap
    decreases |toks|
  {
    if toks != [] {
      var init := toks[..|toks| - 1];
      var t := toks[|toks| - 1];
      assert toks == init + [t];
      LineSnoc(m, dev, init, t);
      LinePins(m, dev, init);
      PinsStep(m, dev, init, t);
    }
  }

  /** The step of `LinePins`: one more word on a line read through. */
  lemma PinsStep(m: Maps, dev: string, init: seq<Token>, t: Token)
    requires LineF(m, dev, init + [t]).ok
    requires LineF(m, dev, init).ok
    requires LineF(m, dev, init).m.pinmap ==
      if HasNum(init) then m.pinmap[dev := Expected(Pins(m.pinmap, dev), init)] else m.pinmap
    ensures LineF(m, dev, init + [t]).m.pinmap ==
      if HasNum(init + [t]) then m.pinmap[dev := Expected(Pins(m.pinmap, dev), init + [t])] else m.pinmap
  {
    LineSnoc(m, dev, init, t);
    HasNumSnoc(init, t);
    var v := Pins(m.pinmap, dev);
    var pre := LineF(m, dev, init).m;
    var u := Expected(v, init);
    assert Pins(pre.pinmap, dev) == u by {
      if !HasNum(init) {
        ExpectedNone(v, init);
      }
    }
    assert pre.pinmap == m.pinmap[dev := u] || pre.pinmap == m.pinmap;
    if t.Num? {
      var w := if t.n > |u| then Grow(u, t.n) else u;
      assert LineF(m, dev, init + [t]).m.pinmap == pre.pinmap[dev := w[t.n - 1 := |init| + 1]];
      assert w[t.n - 1 := |init| + 1] == Expected(v, init + [t]) by {
        ExpectedSnoc(v, init, t.n);
      }
      Reassign(m.pinmap, pre.pinmap, dev, u, Expected(v, init + [t]));
    } else {
      assert LineF(m, dev, init + [t]).m.pinmap == pre.pinmap;
      assert Expected(v, init + [t]) == u by {
        ExpectedSnocOther(v, init, t);
      }
    }
  }

  lemma Reassign<K, V>(m: map<K, V>, p: map<K, V>, k: K, a: V, b: V)
    requires p == m[k := a] || p == m
    ensures p[k := b] == m[k := b]
  {}

  lemma ExpectedNone(v: seq<int>, toks: seq<Token>)
    requires !HasNum(toks)
    ensures Expected(v, toks) == v
  {
    NoNum(toks);
  }

  lemma {:induction false} NoNum(toks: seq<Token>)
    requires !HasNum(toks)
    ensures MaxPin(toks) == 0 && forall n :: LastPos(toks, n) == 0
    decreases |toks|
  {
    if toks != [] {
      var init := toks[..|toks| - 1];
      var t := toks[|toks| - 1];
      assert toks == init + [t];
      HasNumSnoc(init, t);
      NoNum(init);
    }
  }

  lemma {:induction false} LastPosMax(toks: seq<Token>, n: int)
    ensures LastPos(toks, n) > 0 ==> n <= MaxPin(toks)
    decreases |toks|
  {
    if toks != [] {
      LastPosMax(toks[..|toks| - 1], n);
    }
  }

  /** A number word appended: one more step of `TokenF` on the expected
      vector. */
  lemma ExpectedSnoc(v: seq<int>, init: seq<Token>, n: int)
    requires n >= 1
    ensures var u := Expected(v, init);
      var w := if n > |u| then Grow(u, n) else u;
      w[n - 1 := |init| + 1] == Expected(v, init + [Num(n)])
  {
    var toks := init + [Num(n)];
    assert toks[..|toks| - 1] == init;
    var u := Expected(v, init);
    var w := if n > |u| then Grow(u, n) else u;
    var e := Expected(v, toks);
    assert |w[n - 1 := |toks|]| == |e|;
    forall k | 0 <= k < |e|
      ensures w[n - 1 := |toks|][k] == e[k]
    {
      if k != n - 1 {
        assert LastPos(toks, k + 1) == LastPos(init, k + 1);
        if k >= |u| {
          LastPosMax(init, k + 1);
        }
      }
    }
  }

  lemma ExpectedSnocOther(v: seq<int>, init: seq<Token>, t: Token)
    requires !t.Num?
    ensures Expected(v, init + [t]) == Expected(v, init)
  {
    var toks := init + [t];
    assert toks[..|toks| - 1] == init;
    var e := Expected(v, toks);
    forall k | 0 <= k < |e|
      ensures e[k] == Expected(v, init)[k]
    {
      assert LastPos(toks, k + 1) == LastPos(init, k + 1);
    }
  }

  /** A vector is never shortened by a line read through, and a device
      with an entry keeps it. */
  lemma LineGrows(m: Maps, dev: string, toks: seq<Token>, d: string)
    requires LineF(m, dev, toks).ok
    ensures var r := LineF(m, dev, toks).m;
      |Pins(r.pinmap, d)| >= |Pins(m.pinmap, d)| && (d in m.pinmap ==> d in r.pinmap)
      && (d in m.vdd ==> d in r.vdd) && (d in m.gnd ==> d in r.gnd)
  {
    LinePins(m, dev, toks);
    LineVdd(m, dev, toks);
    LineGnd(m, dev, toks);
  }

  // ---------------------------------------------------------------------
  // The reader

  /** One line of the map: the text the module name is read from, and the
      pin words that follow it. */
  datatype PmapLine = PmapLine(head: string, pins: seq<string>)

  function Tokens(pins: seq<string>): (ts: seq<Token>)
    ensures |ts| == |pins| && forall i :: 0 <= i < |pins| ==> ts[i] == Classify(pins[i])
  {
    seq(|pins|, i requires 0 <= i < |pins| => Classify(pins[i]))
  }

  /** `read_pmap` over its lines, stopping at the first that fails. */
  function PmapF(m: Maps, lines: seq<PmapLine>): LineResult
    decreases |lines|
  {
    if lines == [] then LineResult(m, true)
    else
      var pre := PmapF(m, lines[..|lines| - 1]);
      if !pre.ok then pre
      else
        var l := lines[|lines| - 1];
        LineF(pre.m, ChdlModule(l.head), Tokens(l.pins))
  }

  /** Reading the whole map never shortens a vector or drops an entry. */
  lemma {:induction false} PmapGrows(m: Maps, lines: seq<PmapLine>, d: string)
    requires PmapF(m, lines).ok
    ensures var r := PmapF(m, lines).m;
      |Pins(r.pinmap, d)| >= |Pins(m.pinmap, d)| && (d in m.pinmap ==> d in r.pinmap)
      && (d in m.vdd ==> d in r.vdd) && (d in m.gnd ==> d in r.gnd)
    decreases |lines|
  {
    if lines != [] {
      var pre := PmapF(m, lines[..|lines| - 1]);
      PmapGrows(m, lines[..|lines| - 1], d);
      var l := lines[|lines| - 1];
      LineGrows(pre.m, ChdlModule(l.head), Tokens(l.pins), d);
    }
  }

  /** The three global maps of netlist_map.cpp. */
  class PinMap {
    var vdd: map<string, set<int>>
    var gnd: map<string, set<int>>
    var pinmap: map<string, seq<int>>

    function State(): Maps
      reads this
    {
      Maps(vdd, gnd, pinmap)
    }

    constructor ()
      ensures State() == Maps(map[], map[], map[])
    {
      vdd := map[];
      gnd := map[];
      pinmap := map[];
    }

    /** The body of `read_pmap`'s inner loop for one word. */
    method Word(dev: string, pin: string, idx: int) returns (ok: bool)
      modifies this
      ensures var r := TokenF(old(State()), dev, Classify(pin), idx);
        ok == r.Some? && State() == (if ok then r.value else old(State()))
    {
      if pin == "vdd" {
        vdd := vdd[dev := Rail(vdd, dev) + {idx}];
        ok := true;
      } else if pin == "gnd" {
        gnd := gnd[dev := Rail(gnd, dev) + {idx}];
        ok := true;
      } else if pin == "nc" {
        ok := true;
      } else {
        var pnum := LeadingInt(pin);
        if pnum.None? || pnum.value <= 0 {
          ok := false;
        } else {
          var n := pnum.value;
          var v := Pins(pinmap, dev);
          if n > |v| {
            v := Grow(v, n);
          }
          pinmap := pinmap[dev := v[n - 1 := idx]];
          ok := true;
        }
      }
    }

    /** `read_pmap`'s inner loop over one line's words, `idx` counting
        from 1. */
    method Line(dev: string, pins: seq<string>) returns (ok: bool)
      modifies this
      ensures var r := LineF(old(State()), dev, Tokens(pins));
        ok == r.ok && State() == r.m
    {
      ghost var m0 := State();
      ghost var toks := Tokens(pins);
      var idx := 1;
      ok := true;
      while idx <= |pins|
        invariant 1 <= idx <= |pins| + 1
        invariant ok && LineF(m0, dev, toks[..idx - 1]) == LineResult(State(), true)
      {
        LineStep(m0, dev, toks, idx - 1, State());
        ok := Word(dev, pins[idx - 1], idx);
        if !ok {
          LineStops(m0, dev, toks, idx);
          return;
        }
        idx := idx + 1;
      }
      assert toks[..|pins|] == toks;
    }

    /** `read_pmap`'s outer loop, one line at a time. */
    method ReadPmap(lines: seq<PmapLine>) returns (ok: bool)
      modifies this
      ensures var r := PmapF(old(State()), lines);
        ok == r.ok && State() == r.m
    {
      ghost var m0 := State();
      var i := 0;
      ok := true;
      while i < |lines|
        invariant 0 <= i <= |lines|
        invariant ok && PmapF(m0, lines[..i]) == LineResult(State(), true)
      {
        PmapSnoc(m0, lines, i);
        var dev := ReadChdlModule(lines[i].head);
        ok := Line(dev, lines[i].pins);
        if !ok {
          PmapStops(m0, lines, i);
          return;
        }
        i := i + 1;
      }
      assert lines[..|lines|] == lines;
    }
  }

  /** One word on top of a prefix that read through. */
  lemma LineStep(m: Maps, dev: string, toks: seq<Token>, k: nat, s: Maps)
    requires k < |toks| && LineF(m, dev, toks[..k]) == LineResult(s, true)
    ensures var r := TokenF(s, dev, toks[k], k + 1);
      LineF(m, dev, toks[..k + 1]) == if r.Some? then LineResult(r.value, true) else LineResult(s, false)
  {
    assert toks[..k + 1] == toks[..k] + [toks[k]];
    LineSnoc(m, dev, toks[..k], toks[k]);
  }

  lemma PmapSnoc(m: Maps, lines: seq<PmapLine>, i: nat)
    requires i < |lines|
    ensures var pre := PmapF(m, lines[..i]);
      PmapF(m, lines[..i + 1]) ==
        if !pre.ok then pre
        else LineF(pre.m, ChdlModule(lines[i].head), Tokens(lines[i].pins))
  {
    assert lines[..i + 1][..i] == lines[..i];
  }

  /** Once a word fails, the rest of the line changes nothing. */
  lemma {:induction false} LineStops(m: Maps, dev: string, toks: seq<Token>, idx: nat)
    requires 1 <= idx <= |toks| && !LineF(m, dev, toks[..idx]).ok
    ensures LineF(m, dev, toks) == LineF(m, dev, toks[..idx])
    decreases |toks| - idx
  {
    if idx < |toks| {
      assert toks[..idx + 1] == toks[..idx] + [toks[idx]];
      LineSnoc(m, dev, toks[..idx], toks[idx]);
      LineStops(m, dev, toks, idx + 1);
    } else {
      assert toks[..idx] == toks;
    }
  }

  lemma {:induction false} PmapStops(m: Maps, lines: seq<PmapLine>, i: nat)
    requires i < |lines| && !PmapF(m, lines[..i + 1]).ok
    ensures PmapF(m, lines) == PmapF(m, lines[..i + 1])
    decreases |lines| - i
  {
    if i + 1 < |lines| {
      PmapSnoc(m, lines, i + 1);
      PmapStops(m, lines, i + 1);
    } else {
      assert lines[..i + 1] == lines;
    }
  }
}
