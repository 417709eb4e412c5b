/** The drawable objects of board/board.cpp and the registry that renders
    them, layer by layer, through a Gerber writer: tracks, vias and text.

    A drawable decides from the layer being written and the current
    priority which writer calls to make; the registry walks every priority
    in ascending order and, for each, every live drawable. Lengths are in
    micro-inches, like the writer's coordinates. */
module Drawables {
  import opened Gerber

  // ---------------------------------------------------------------------
  // Layers (`enum layer`)

  const Silkscreen: int := 0
  const Mask: int := 1
  const Cu0: int := 2
  /** `N_CU`: the number of copper layers, `LAYER_CU0` to `LAYER_CU3`. */
  const NCu: int := 4
  const Pth: int := 6
  const Npth: int := 7

  /** The priority at which clearances are cut, copper is drawn, and text
      is written. */
  const ClearPri: int := -50
  const CopperPri: int := 0
  const TextPri: int := -100

  // ---------------------------------------------------------------------
  // Drawables

  /** `font::f`: the strokes of each character, as pairs of end points in
      font units. */
  type Font = map<char, seq<Point>>

  datatype Drawable =
    | Track(layerIdx: int, thickness: int, clearance: int, points: seq<Point>)
    | Via(center: Point, outer: int, inner: int, clearance: int)
    | Text(font: Font, layer: int, pos: Point, str: string, scale: int)

  /** The glyph of `c`, if the font has one, is a whole number of strokes:
      `draw_char` reads its points two at a time. */
  predicate Paired(f: Font, c: char)
  {
    c in f ==> |f[c]| % 2 == 0
  }

  /** Every character of `str` has a glyph it can draw. */
  predicate FontOk(f: Font, str: string)
  {
    forall i :: 0 <= i < |str| ==> Paired(f, str[i])
  }

  /** What drawing `d` on layer `l` needs to stay inside its data: a track
      on its own layer has a first point, and a text on its own layer has
      paired glyphs for its characters. */
  predicate Renderable(d: Drawable, l: int)
  {
    match d
    case Track(idx, _, _, pts) => l == Cu0 + idx ==> |pts| > 0
    case Via(_, _, _, _) => true
    case Text(f, layer, _, str, _) => l == layer ==> FontOk(f, str)
  }

  function Add(a: Point, b: Point): Point { Point(a.x + b.x, a.y + b.y) }

  /** `point::scale`. */
  function Scaled(v: Point, k: int): Point { Point(k * v.x, k * v.y) }

  // ---------------------------------------------------------------------
  // track::draw

  /** The pen drawing from point to point: one `draw(to)` per point. */
  function Lines(s: State, pts: seq<Point>): (r: State)
    requires Ready(s)
    ensures Ready(r) && SameSetup(s, r)
    ensures |pts| > 0 ==> r.p == pts[|pts| - 1]
    decreases |pts|
  {
    if |pts| == 0 then s else Lines(DrawF(s, pts[0]), pts[1..])
  }

  /** A step that keeps the setup keeps the writer's invariant. */
  lemma KeepsWf(s: State, r: State)
    requires Wf(s) && SameSetup(s, r)
    ensures Wf(r)
  {}

  /** A polyline: a move to the first point, then draws to the others. */
  function Path(s: State, pts: seq<Point>): (r: State)
    requires s.modeSet && s.apertureSet && Wf(s) && |pts| > 0
    ensures Ready(r) && Wf(r) && SameSetup(s, r) && r.p == pts[|pts| - 1]
  {
    var r := Lines(MoveF(s, pts[0]), pts[1..]);
    KeepsWf(s, r);
    r
  }

  /** `track::draw`: on its own copper layer, clear polarity and the
      clearance aperture at priority -50, dark polarity and the thickness
      aperture at priority 0, then the polyline; nothing otherwise. */
  function TrackF(s: State, t: Drawable, pri: int, l: int): (r: State)
    requires t.Track? && Wf(s) && Renderable(t, l)
    ensures Wf(r)
  {
    if l == Cu0 + t.layerIdx && pri == ClearPri then
      Path(SetApertureF(SetClearF(s), t.clearance), t.points)
    else if l == Cu0 + t.layerIdx && pri == CopperPri then
      Path(SetApertureF(SetDarkF(s), t.thickness), t.points)
    else s
  }

  /** The lines of a polyline from pen position `p`: a `D02` move to the
      first point, then one `D01` draw per later point, each coordinate
      compressed against the point before it. */
  function PathText(p: Point, pts: seq<Point>): (r: seq<string>)
    requires |pts| > 0
    ensures |r| == |pts|
  {
    [Coord(true, p, pts[0]) + "D02*"]
    + seq(|pts| - 1, i requires 0 <= i < |pts| - 1 => Coord(true, pts[i], pts[i + 1]) + "D01*")
  }

  lemma {:induction false} LinesText(s: State, pts: seq<Point>)
    requires Ready(s)
    ensures Lines(s, pts).out ==
      s.out + seq(|pts|, i requires 0 <= i < |pts| => Coord(true, if i == 0 then s.p else pts[i - 1], pts[i]) + "D01*")
    decreases |pts|
  {
    if |pts| > 0 {
      var s1 := DrawF(s, pts[0]);
      LinesText(s1, pts[1..]);
      var tail := seq(|pts| - 1, i requires 0 <= i < |pts| - 1 =>
        Coord(true, if i == 0 then s1.p else pts[1..][i - 1], pts[1..][i]) + "D01*");
      var all := seq(|pts|, i requires 0 <= i < |pts| => Coord(true, if i == 0 then s.p else pts[i - 1], pts[i]) + "D01*");
      assert all == [Coord(true, s.p, pts[0]) + "D01*"] + tail;
    }
  }

  /** A polyline writes exactly its move and draws, after whatever polarity
      and aperture lines came before. */
  lemma PathWrites(s: State, pts: seq<Point>)
    requires s.modeSet && s.apertureSet && Wf(s) && |pts| > 0
    ensures Path(s, pts).out == s.out + PathText(s.p, pts)
  {
    var s1 := MoveF(s, pts[0]);
    var rest := pts[1..];
    LinesText(s1, rest);
    var ds := seq(|rest|, i requires 0 <= i < |rest| => Coord(true, if i == 0 then s1.p else rest[i - 1], rest[i]) + "D01*");
    var es := seq(|pts| - 1, i requires 0 <= i < |pts| - 1 => Coord(true, pts[i], pts[i + 1]) + "D01*");
    assert ds == es;
  }

  /** At priority -50 a track on its layer ends in clear polarity with its
      clearance aperture, at priority 0 in dark polarity with its thickness;
      either way the pen rests on the last point. A track on another layer,
      or at another priority, writes nothing. */
  lemma TrackSetup(s: State, t: Drawable, pri: int, l: int)
    requires t.Track? && Wf(s) && Renderable(t, l)
    ensures var r := TrackF(s, t, pri, l);
      && (l == Cu0 + t.layerIdx && pri == ClearPri ==>
            r.modeSet && r.modeClear && r.a == t.clearance && r.p == t.points[|t.points| - 1])
      && (l == Cu0 + t.layerIdx && pri == CopperPri ==>
            r.modeSet && !r.modeClear && r.a == t.thickness && r.p == t.points[|t.points| - 1])
      && (l != Cu0 + t.layerIdx || (pri != ClearPri && pri != CopperPri) ==> r == s)
  {
  }

  // ---------------------------------------------------------------------
  // via::draw

  /** `via::draw` with the copper layers taken as `LAYER_CU0 <= l < top`:
      copper pads below `top`, the drill on the plated-through-hole layer
      when that lies at or above `top`. */
  function ViaWith(s: State, v: Drawable, pri: int, l: int, top: int): (r: State)
    requires v.Via? && Wf(s)
    ensures Wf(r)
  {
    if Cu0 <= l < top then
      (if pri == ClearPri then FlashAtF(SetApertureF(SetClearF(s), v.clearance), v.center)
       else if pri == CopperPri then FlashAtF(SetApertureF(SetDarkF(s), v.outer), v.center)
       else s)
    else if l == Pth then
      (if pri == CopperPri then FlashAtF(SetApertureF(SetDarkF(s), v.inner), v.center) else s)
    else s
  }

  /** `via::draw` as written: the test `l <= LAYER_CU0 + N_CU` also admits
      `LAYER_PTH`, so the branch meant for it is never taken. */
  function ViaAsWrittenF(s: State, v: Drawable, pri: int, l: int): (r: State)
    requires v.Via? && Wf(s)
    ensures Wf(r)
  {
    ViaWith(s, v, pri, l, Cu0 + NCu + 1)
  }

  /** `via::draw` as intended: the copper pads on the four copper layers,
      the drill of diameter `inner` on the plated-through-hole layer. */
  function ViaF(s: State, v: Drawable, pri: int, l: int): (r: State)
    requires v.Via? && Wf(s)
    ensures Wf(r)
  {
    ViaWith(s, v, pri, l, Cu0 + NCu)
  }

  /** As written, the drill diameter never reaches the output: on the
      plated-through-hole layer the via flashes its clearance at -50 and its
      pad at 0, exactly as on copper. */
  lemma ViaAsWrittenIgnoresInner(s: State, v: Drawable, pri: int, l: int, inner: int)
    requires v.Via? && Wf(s)
    ensures ViaAsWrittenF(s, v, pri, l) == ViaAsWrittenF(s, v.(inner := inner), pri, l)
    ensures ViaAsWrittenF(s, v, ClearPri, Pth) == FlashAtF(SetApertureF(SetClearF(s), v.clearance), v.center)
    ensures ViaAsWrittenF(s, v, CopperPri, Pth) == FlashAtF(SetApertureF(SetDarkF(s), v.outer), v.center)
  {
  }

  /** The corrected via: on the plated-through-hole layer only the drill is
      flashed, and only at priority 0; on copper it draws as written; on
      every other layer nothing. */
  lemma ViaLayers(s: State, v: Drawable, pri: int, l: int)
    requires v.Via? && Wf(s)
    ensures ViaF(s, v, CopperPri, Pth) == FlashAtF(SetApertureF(SetDarkF(s), v.inner), v.center)
    ensures pri != CopperPri ==> ViaF(s, v, pri, Pth) == s
    ensures Cu0 <= l < Cu0 + NCu ==> ViaF(s, v, pri, l) == ViaAsWrittenF(s, v, pri, l)
    ensures (l < Cu0 || l > Pth) ==> ViaF(s, v, pri, l) == s
  {
  }

  /** A via flashes once, at its center, with the aperture of its role. */
  lemma ViaFlashes(s: State, v: Drawable, pri: int, l: int)
    requires v.Via? && Wf(s)
    requires (Cu0 <= l < Cu0 + NCu && (pri == ClearPri || pri == CopperPri)) || (l == Pth && pri == CopperPri)
    ensures var r := ViaF(s, v, pri, l);
      && r.out[|r.out| - 1][|r.out[|r.out| - 1]| - 4..] == "D03*"
      && r.p == v.center
      && r.a == (if l == Pth then v.inner else if pri == ClearPri then v.clearance else v.outer)
      && r.modeClear == (pri == ClearPri)
  {
  }

  // ---------------------------------------------------------------------
  // font::draw_char and text::draw

  /** The largest x of the strokes, or 0: `width` in `draw_char`. */
  function MaxX(v: seq<Point>): int
  {
    if |v| == 0 then 0
    else var m := MaxX(v[..|v| - 1]); if v[|v| - 1].x > m then v[|v| - 1].x else m
  }

  lemma {:induction false} MaxXBound(v: seq<Point>)
    ensures MaxX(v) >= 0
    ensures forall i :: 0 <= i < |v| ==> v[i].x <= MaxX(v)
    ensures MaxX(v) == 0 || exists i :: 0 <= i < |v| && v[i].x == MaxX(v)
  {
    if |v| > 0 {
      var w := v[..|v| - 1];
      MaxXBound(w);
      assert forall i :: 0 <= i < |w| ==> v[i] == w[i];
      if MaxX(v) != 0 && MaxX(v) != v[|v| - 1].x {
        var i :| 0 <= i < |w| && w[i].x == MaxX(w);
        assert v[i].x == MaxX(v);
      }
    }
  }

  lemma MaxXStep(v: seq<Point>, i: nat)
    requires i + 2 <= |v|
    ensures var m := MaxX(v[..i]); var m1 := if v[i].x > m then v[i].x else m;
      MaxX(v[..i + 2]) == if v[i + 1].x > m1 then v[i + 1].x else m1
  {
    assert v[..i + 2][..i + 1] == v[..i + 1];
    assert v[..i + 1][..i] == v[..i];
  }

  /** The strokes of a glyph at origin `p`, each a `draw(from, to)` from
      one point of a pair to the other. */
  function Strokes(s: State, v: seq<Point>, p: Point, k: int): (r: State)
    requires s.modeSet && s.apertureSet
    ensures r.modeSet && r.apertureSet && SameSetup(s, r)
    decreases |v|
  {
    if |v| < 2 then s
    else Strokes(DrawFromF(s, Add(p, Scaled(v[0], k)), Add(p, Scaled(v[1], k))), v[2..], p, k)
  }

  lemma StrokesStep(s: State, v: seq<Point>, i: nat, p: Point, k: int)
    requires s.modeSet && s.apertureSet && i + 2 <= |v|
    ensures Strokes(s, v[i..], p, k) ==
      Strokes(DrawFromF(s, Add(p, Scaled(v[i], k)), Add(p, Scaled(v[i + 1], k))), v[i + 2..], p, k)
  {
    assert v[i..][2..] == v[i + 2..];
  }

  /** The pen position after a character: a space advances three scales, a
      character missing from the font stays put, a glyph advances its width
      plus 1.3 scales. */
  function Advance(f: Font, c: char, p: Point, k: int): Point
  {
    if c == ' ' then Point(p.x + 3 * k, p.y)
    else if c !in f then p
    else Point(p.x + MaxX(f[c]) * k + k * 13 / 10, p.y)
  }

  /** `font::draw_char`: dark polarity, an aperture of a fifth of the
      scale, then the glyph's strokes. */
  function CharF(s: State, f: Font, c: char, p: Point, k: int): (r: State)
    requires Wf(s) && Paired(f, c)
    ensures Wf(r)
  {
    if c == ' ' || c !in f then s
    else
      var s1 := SetApertureF(SetDarkF(s), k / 5);
      var r := Strokes(s1, f[c], p, k);
      KeepsWf(s1, r);
      r
  }

  /** The characters of a string, each drawn where the previous one left
      the pen; the written state and the final pen position. */
  function TextF(s: State, f: Font, str: string, p: Point, k: int): (r: (State, Point))
    requires Wf(s) && FontOk(f, str)
    ensures Wf(r.0) && r.1.y == p.y
    decreases |str|
  {
    if |str| == 0 then (s, p)
    else TextF(CharF(s, f, str[0], p, k), f, str[1..], Advance(f, str[0], p, k), k)
  }

  /** `text::draw`: at priority -100 and on its own layer only. */
  function TextDrawF(s: State, t: Drawable, pri: int, l: int): (r: State)
    requires t.Text? && Wf(s) && (t.layer == l ==> FontOk(t.font, t.str))
    ensures Wf(r)
  {
    if pri == TextPri && t.layer == l then TextF(s, t.font, t.str, t.pos, t.scale).0 else s
  }

  /** Spaces and characters the font lacks write nothing; a drawn glyph
      leaves dark polarity and the aperture of a fifth of the scale. */
  lemma CharEffect(s: State, f: Font, c: char, p: Point, k: int)
    requires Wf(s) && Paired(f, c)
    ensures c == ' ' || c !in f ==> CharF(s, f, c, p, k) == s
    ensures c != ' ' && c in f ==>
      var r := CharF(s, f, c, p, k); r.modeSet && !r.modeClear && r.a == k / 5
  {
  }

  /** The pen moves right by at least 1.3 scales for every glyph in the
      font, however narrow, when the scale is a positive multiple of ten. */
  lemma AdvanceGlyph(f: Font, c: char, p: Point, k: int)
    requires c != ' ' && c in f && k > 0 && k % 10 == 0
    ensures Advance(f, c, p, k).x >= p.x + k * 13 / 10
    ensures Advance(f, c, p, k).y == p.y
  {
    MaxXBound(f[c]);
    assert MaxX(f[c]) * k >= 0;
  }

  // ---------------------------------------------------------------------
  // The virtual `drawable::draw`, and the registry traversal

  function DrawOneF(s: State, d: Drawable, pri: int, l: int): (r: State)
    requires Wf(s) && Renderable(d, l)
    ensures Wf(r)
  {
    match d
    case Track(_, _, _, _) => TrackF(s, d, pri, l)
    case Via(_, _, _, _) => ViaF(s, d, pri, l)
    case Text(_, _, _, _, _) => TextDrawF(s, d, pri, l)
  }

  predicate AllRenderable(ds: seq<Drawable>, l: int)
  {
    forall i :: 0 <= i < |ds| ==> Renderable(ds[i], l)
  }

  /** One priority: every drawable in turn. */
  function PassF(s: State, ds: seq<Drawable>, pri: int, l: int): (r: State)
    requires Wf(s) && AllRenderable(ds, l)
    ensures Wf(r)
    decreases |ds|
  {
    if |ds| == 0 then s else PassF(DrawOneF(s, ds[0], pri, l), ds[1..], pri, l)
  }

  /** `drawable::draw_layer`: every priority in turn, each a full pass. */
  function LayerF(s: State, pris: seq<int>, ds: seq<Drawable>, l: int): (r: State)
    requires Wf(s) && AllRenderable(ds, l)
    ensures Wf(r)
    decreases |pris|
  {
    if |pris| == 0 then s else LayerF(PassF(s, ds, pris[0], l), pris[1..], ds, l)
  }

  /** The `draw(pri, l, g)` calls a traversal makes, as (priority, handle). */
  function Calls(pris: seq<int>, order: seq<nat>): (r: seq<(int, nat)>)
    decreases |pris|
  {
    if |pris| == 0 then [] else Row(pris[0], order) + Calls(pris[1..], order)
  }

  function Row(pri: int, order: seq<nat>): (r: seq<(int, nat)>)
    ensures |r| == |order|
    ensures forall i :: 0 <= i < |order| ==> r[i] == (pri, order[i])
  {
    seq(|order|, i requires 0 <= i < |order| => (pri, order[i]))
  }

  /** Each priority meets each drawable: a call per pair and no other. */
  lemma {:induction false} CallsCover(pris: seq<int>, order: seq<nat>)
    ensures |Calls(pris, order)| == |pris| * |order|
    ensures forall pri, h :: (pri, h) in Calls(pris, order) <==> pri in pris && h in order
    decreases |pris|
  {
    if |pris| > 0 {
      CallsCover(pris[1..], order);
      var c, row, t := Calls(pris, order), Row(pris[0], order), Calls(pris[1..], order);
      assert c == row + t;
      assert |pris| * |order| == |order| + (|pris| - 1) * |order|;
      forall pri, h ensures (pri, h) in c <==> pri in pris && h in order {
        if (pri, h) in row {
          var j :| 0 <= j < |row| && row[j] == (pri, h);
          assert order[j] == h;
        }
        if pri == pris[0] && h in order {
          var j :| 0 <= j < |order| && order[j] == h;
          assert row[j] == (pri, h);
        }
        if pri in pris && pri != pris[0] { assert pri in pris[1..]; }
        if pri in pris[1..] { assert pri in pris; }
      }
    }
  }

  /** With strictly increasing priorities the calls come priority by
      priority: no call at a priority follows one at a higher priority. */
  lemma {:induction false} CallsOrdered(pris: seq<int>, order: seq<nat>)
    requires Sorted(pris)
    ensures forall i, j :: 0 <= i < j < |Calls(pris, order)| ==> Calls(pris, order)[i].0 <= Calls(pris, order)[j].0
    decreases |pris|
  {
    if |pris| > 0 {
      var c, row, t := Calls(pris, order), Row(pris[0], order), Calls(pris[1..], order);
      CallsOrdered(pris[1..], order);
      CallsCover(pris[1..], order);
      assert c == row + t;
      forall i, j | 0 <= i < j < |c| ensures c[i].0 <= c[j].0 {
        if j >= |row| {
          var tj := t[j - |row|];
          assert c[j] == tj && tj in t;
          assert tj.0 in pris[1..];
          if i >= |row| { assert c[i] == t[i - |row|]; }
        }
      }
    }
  }

  /** Strictly increasing: each element once, in order. */
  predicate Sorted(xs: seq<int>)
  {
    forall i, j :: 0 <= i < j < |xs| ==> xs[i] < xs[j]
  }

  /** `std::set<int>::insert`: the ordered set with `x` added. */
  function Insert(xs: seq<int>, x: int): (r: seq<int>)
    decreases |xs|
  {
    if |xs| == 0 then [x]
    else if x == xs[0] then xs
    else if x < xs[0] then [x] + xs
    else [xs[0]] + Insert(xs[1..], x)
  }

  /** Inserting keeps the set ordered and adds exactly `x`. */
  lemma {:induction false} InsertSorted(xs: seq<int>, x: int)
    requires Sorted(xs)
    ensures Sorted(Insert(xs, x))
    ensures forall y :: y in Insert(xs, x) <==> y in xs || y == x
    decreases |xs|
  {
    if |xs| > 0 && x > xs[0] {
      var t := xs[1..];
      InsertSorted(t, x);
      var r := Insert(xs, x);
      assert r == [xs[0]] + Insert(t, x);
      forall y ensures y in r <==> y in xs || y == x {
        if y in xs && y != xs[0] { assert y in t; }
        if y in t { assert y in xs; }
      }
      forall i, j | 0 <= i < j < |r| ensures r[i] < r[j] {
        if i == 0 {
          assert r[j] in Insert(t, x);
          if r[j] != x {
            var k :| 0 <= k < |t| && t[k] == r[j];
            assert t[k] == xs[k + 1];
          }
        }
      }
    }
  }

  /** The drawables a handle sequence names. */
  function Lookup(m: map<nat, Drawable>, order: seq<nat>): (r: seq<Drawable>)
    requires forall i :: 0 <= i < |order| ==> order[i] in m
    ensures |r| == |order| && forall i :: 0 <= i < |order| ==> r[i] == m[order[i]]
  {
    seq(|order|, i requires 0 <= i < |order| => m[order[i]])
  }

  /** `order` lists the live handles, each once: the unspecified order in
      which `std::set<drawable*>` visits the live objects. */
  predicate Enumerates(order: seq<nat>, live: map<nat, Drawable>)
  {
    && (forall i :: 0 <= i < |order| ==> order[i] in live)
    && (forall h :: h in live ==> h in order)
    && (forall i, j :: 0 <= i < j < |order| ==> order[i] != order[j])
  }

  // ---------------------------------------------------------------------
  // The drawing methods

  /** `track::draw`. */
  method TrackDraw(t: Drawable, pri: int, l: int, g: Emitter)
    requires t.Track? && g.Valid() && Renderable(t, l)
    modifies g
    ensures g.Valid() && g.Model() == TrackF(old(g.Model()), t, pri, l)
  {
    if l == Cu0 + t.layerIdx {
      if pri == ClearPri {
        g.SetClear();
        g.SetAperture(t.clearance);
      } else if pri == CopperPri {
        g.SetDark();
        g.SetAperture(t.thickness);
      } else {
        return;
      }
      DrawPath(t.points, g);
    }
  }

  /** The polyline of `track::draw`: a move to the first point, then a
      draw to each following one. */
  method DrawPath(pts: seq<Point>, g: Emitter)
    requires g.Valid() && g.modeSet && g.apertureSet && |pts| > 0
    modifies g
    ensures g.Valid() && g.Model() == Path(old(g.Model()), pts)
  {
    ghost var s1 := g.Model();
    g.Move(pts[0]);
    var i := 1;
    while i < |pts|
      invariant 1 <= i <= |pts|
      invariant g.Valid() && Ready(g.Model())
      invariant Lines(g.Model(), pts[i..]) == Path(s1, pts)
    {
      DrawNext(pts, i, g);
      i := i + 1;
    }
    LinesEnd(g.Model(), pts);
  }

  /** One draw of the polyline loop. */
  method DrawNext(pts: seq<Point>, i: nat, g: Emitter)
    requires g.Valid() && Ready(g.Model()) && i < |pts|
    modifies g
    ensures g.Valid() && Ready(g.Model())
    ensures Lines(g.Model(), pts[i + 1..]) == Lines(old(g.Model()), pts[i..])
  {
    assert pts[i..][1..] == pts[i + 1..];
    var r := g.Draw(pts[i]);
  }

  lemma LinesEnd(s: State, pts: seq<Point>)
    requires Ready(s)
    ensures Lines(s, pts[|pts|..]) == s
  {
    assert pts[|pts|..] == [];
  }

  /** `via::draw`, with the plated-through-hole branch reachable. */
  method ViaDraw(v: Drawable, pri: int, l: int, g: Emitter)
    requires v.Via? && g.Valid()
    modifies g
    ensures g.Valid() && g.Model() == ViaF(old(g.Model()), v, pri, l)
  {
    if Cu0 <= l && l < Cu0 + NCu {
      if pri == ClearPri {
        g.SetClear();
        g.SetAperture(v.clearance);
        var r := g.FlashAt(v.center);
      } else if pri == CopperPri {
        g.SetDark();
        g.SetAperture(v.outer);
        var r := g.FlashAt(v.center);
      }
    } else if l == Pth {
      if pri == CopperPri {
        g.SetDark();
        g.SetAperture(v.inner);
        var r := g.FlashAt(v.center);
      }
    }
  }

  /** The stroke loop of `font::draw_char`: draws the glyph and measures
      its width. */
  method DrawStrokes(v: seq<Point>, p: Point, k: int, g: Emitter) returns (width: int)
    requires g.Valid() && g.modeSet && g.apertureSet && |v| % 2 == 0
    modifies g
    ensures g.Valid() && g.Model() == Strokes(old(g.Model()), v, p, k)
    ensures width == MaxX(v)
  {
    ghost var target := Strokes(g.Model(), v, p, k);
    width := 0;
    ghost var n := |v| / 2;
    ghost var j := 0;
    var i := 0;
    while i < |v|
      invariant 0 <= j <= n && i == 2 * j && |v| == 2 * n
      invariant g.Valid() && g.modeSet && g.apertureSet
      invariant Strokes(g.Model(), v[i..], p, k) == target
      invariant width == MaxX(v[..i])
    {
      Stroke(v, i, p, k, g);
      width := Widen(width, v, i);
      i, j := i + 2, j + 1;
    }
    StrokesEnd(g.Model(), v, p, k);
  }

  /** One stroke of the glyph: `draw(from, to)` for the pair at `i`. */
  method Stroke(v: seq<Point>, i: nat, p: Point, k: int, g: Emitter)
    requires g.Valid() && g.modeSet && g.apertureSet && i + 2 <= |v|
    modifies g
    ensures g.Valid() && g.modeSet && g.apertureSet
    ensures Strokes(g.Model(), v[i + 2..], p, k) == Strokes(old(g.Model()), v[i..], p, k)
  {
    StrokesStep(g.Model(), v, i, p, k);
    var r := g.DrawFrom(Add(p, Scaled(v[i], k)), Add(p, Scaled(v[i + 1], k)));
  }

  /** The width measured over one more pair of points. */
  method Widen(width: int, v: seq<Point>, i: nat) returns (w: int)
    requires i + 2 <= |v| && width == MaxX(v[..i])
    ensures w == MaxX(v[..i + 2])
  {
    MaxXStep(v, i);
    w := width;
    if v[i].x > w { w := v[i].x; }
    if v[i + 1].x > w { w := v[i + 1].x; }
  }

  lemma StrokesEnd(s: State, v: seq<Point>, p: Point, k: int)
    requires s.modeSet && s.apertureSet
    ensures Strokes(s, v[|v|..], p, k) == s && v[..|v|] == v
  {}

  /** `font::draw_char`: returns the pen position after the character. */
  method DrawChar(f: Font, c: char, p: Point, k: int, g: Emitter) returns (q: Point)
    requires g.Valid() && Paired(f, c)
    modifies g
    ensures g.Valid() && g.Model() == CharF(old(g.Model()), f, c, p, k)
    ensures q == Advance(f, c, p, k)
  {
    if c == ' ' { return Point(p.x + 3 * k, p.y); }
    if c !in f { return p; }
    g.SetDark();
    g.SetAperture(k / 5);
    var width := DrawStrokes(f[c], p, k, g);
    q := Point(p.x + width * k + k * 13 / 10, p.y);
  }

  /** `text::draw`. */
  method TextDraw(t: Drawable, pri: int, l: int, g: Emitter)
    requires t.Text? && g.Valid() && (t.layer == l ==> FontOk(t.font, t.str))
    modifies g
    ensures g.Valid() && g.Model() == TextDrawF(old(g.Model()), t, pri, l)
  {
    if pri == TextPri && t.layer == l {
      ghost var target := TextF(g.Model(), t.font, t.str, t.pos, t.scale);
      var pos := t.pos;
      var i := 0;
      while i < |t.str|
        invariant 0 <= i <= |t.str|
        invariant g.Valid()
        invariant TextF(g.Model(), t.font, t.str[i..], pos, t.scale) == target
      {
        assert t.str[i..][1..] == t.str[i + 1..];
        pos := DrawChar(t.font, t.str[i], pos, t.scale, g);
        i := i + 1;
      }
    }
  }

  /** The virtual call `p->draw(pri, l, g)`. */
  method DrawOne(d: Drawable, pri: int, l: int, g: Emitter)
    requires g.Valid() && Renderable(d, l)
    modifies g
    ensures g.Valid() && g.Model() == DrawOneF(old(g.Model()), d, pri, l)
  {
    match d
    case Track(_, _, _, _) => TrackDraw(d, pri, l, g);
    case Via(_, _, _, _) => ViaDraw(d, pri, l, g);
    case Text(_, _, _, _, _) => TextDraw(d, pri, l, g);
  }

  /** One priority of `draw_layer`: the inner loop over the drawables. */
  method Pass(ds: seq<Drawable>, pri: int, l: int, g: Emitter)
    requires g.Valid() && AllRenderable(ds, l)
    modifies g
    ensures g.Valid() && g.Model() == PassF(old(g.Model()), ds, pri, l)
  {
    ghost var target := PassF(g.Model(), ds, pri, l);
    var j := 0;
    while j < |ds|
      invariant 0 <= j <= |ds|
      invariant g.Valid()
      invariant PassF(g.Model(), ds[j..], pri, l) == target
    {
      assert ds[j..][1..] == ds[j + 1..];
      DrawOne(ds[j], pri, l, g);
      j := j + 1;
    }
  }

  // ---------------------------------------------------------------------
  // The registry: `drawable::drawables` and `drawable::priorities`

  /** The static sets of `class drawable`. Handles stand for object
      addresses and `next` is the next fresh one; `priorities` is the
      ordered `std::set<int>`, kept as its ascending sequence. */
  class Registry {
    var live: map<nat, Drawable>
    var priorities: seq<int>
    var next: nat

    ghost predicate Valid()
      reads this
    {
      && (forall h :: h in live ==> h < next)
      && Sorted(priorities)
    }

    constructor ()
      ensures Valid() && live == map[] && priorities == []
    {
      live, priorities, next := map[], [], 0;
    }

    /** `drawable::add_priority`. */
    method AddPriority(pri: int)
      requires Valid()
      modifies this
      ensures Valid() && live == old(live) && next == old(next)
      ensures priorities == Insert(old(priorities), pri)
    {
      InsertSorted(priorities, pri);
      priorities := Insert(priorities, pri);
    }

    /** The `drawable` constructor: a fresh object joins the live set. */
    method Register(d: Drawable) returns (h: nat)
      requires Valid()
      modifies this
      ensures Valid() && h !in old(live)
      ensures live == old(live)[h := d] && priorities == old(priorities)
    {
      h := next;
      live := live[h := d];
      next := next + 1;
    }

    /** `track(layer_idx, thickness, clearance)`: no points yet. */
    method AddTrack(layerIdx: int, thickness: int, clearance: int) returns (h: nat)
      requires Valid()
      modifies this
      ensures Valid() && h !in old(live)
      ensures live == old(live)[h := Track(layerIdx, thickness, clearance, [])]
      ensures priorities == Insert(Insert(old(priorities), ClearPri), CopperPri)
    {
      h := Register(Track(layerIdx, thickness, clearance, []));
      AddPriority(ClearPri);
      AddPriority(CopperPri);
    }

    /** `track(layer_idx, thickness)`: the clearance defaults to 1.25 times
        the thickness, rounded down to a micro-inch. */
    method AddTrackDefault(layerIdx: int, thickness: int) returns (h: nat)
      requires Valid()
      modifies this
      ensures Valid() && h !in old(live)
      ensures live == old(live)[h := Track(layerIdx, thickness, thickness * 5 / 4, [])]
      ensures priorities == Insert(Insert(old(priorities), ClearPri), CopperPri)
    {
      h := AddTrack(layerIdx, thickness, thickness * 5 / 4);
    }

    /** `track::add_point`. */
    method AddPoint(h: nat, pt: Point)
      requires Valid() && h in live && live[h].Track?
      modifies this
      ensures Valid() && priorities == old(priorities)
      ensures live == old(live)[h := old(live[h]).(points := old(live[h].points) + [pt])]
    {
      live := live[h := live[h].(points := live[h].points + [pt])];
    }

    /** `via(center, outer, inner, clearance)`. */
    method AddVia(center: Point, outer: int, inner: int, clearance: int) returns (h: nat)
      requires Valid()
      modifies this
      ensures Valid() && h !in old(live)
      ensures live == old(live)[h := Via(center, outer, inner, clearance)]
      ensures priorities == Insert(Insert(old(priorities), ClearPri), CopperPri)
    {
      h := Register(Via(center, outer, inner, clearance));
      AddPriority(ClearPri);
      AddPriority(CopperPri);
    }

    /** `via(center, outer, inner)`: the clearance defaults to 1.25 times
        the outer diameter, rounded down to a micro-inch. */
    method AddViaDefault(center: Point, outer: int, inner: int) returns (h: nat)
      requires Valid()
      modifies this
      ensures Valid() && h !in old(live)
      ensures live == old(live)[h := Via(center, outer, inner, outer * 5 / 4)]
      ensures priorities == Insert(Insert(old(priorities), ClearPri), CopperPri)
    {
      h := AddVia(center, outer, inner, outer * 5 / 4);
    }

    /** `text(f, layer, pos, str, scale)`. */
    method AddText(f: Font, layer: int, pos: Point, str: string, scale: int) returns (h: nat)
      requires Valid()
      modifies this
      ensures Valid() && h !in old(live)
      ensures live == old(live)[h := Text(f, layer, pos, str, scale)]
      ensures priorities == Insert(old(priorities), TextPri)
    {
      h := Register(Text(f, layer, pos, str, scale));
      AddPriority(TextPri);
    }

    /** The destructor: the object leaves the live set; its priorities stay. */
    method Remove(h: nat)
      requires Valid()
      modifies this
      ensures Valid() && live == old(live) - {h} && priorities == old(priorities)
    {
      live := live - {h};
    }

    /** `drawable::draw_layer(l, g)`, visiting the live drawables in the
        order `order` lists them; `calls` records each `draw(pri, l, g)`. */
    method DrawLayer(l: int, g: Emitter, order: seq<nat>) returns (calls: seq<(int, nat)>)
      requires Valid() && g.Valid() && Enumerates(order, live)
      requires forall h :: h in live ==> Renderable(live[h], l)
      modifies g
      ensures g.Valid()
      ensures g.Model() == LayerF(old(g.Model()), priorities, Lookup(live, order), l)
      ensures calls == Calls(priorities, order)
    {
      var ds := Lookup(live, order);
      ghost var target := LayerF(g.Model(), priorities, ds, l);
      calls := [];
      var i := 0;
      while i < |priorities|
        invariant 0 <= i <= |priorities|
        invariant g.Valid() && AllRenderable(ds, l)
        invariant LayerF(g.Model(), priorities[i..], ds, l) == target
        invariant calls + Calls(priorities[i..], order) == Calls(priorities, order)
      {
        LayerStep(g.Model(), priorities, i, ds, l);
        CallsStep(priorities, i, order);
        Pass(ds, priorities[i], l, g);
        ghost var c0 := calls;
        calls := calls + Row(priorities[i], order);
        CallsAssoc(c0, Row(priorities[i], order), Calls(priorities[i + 1..], order));
        i := i + 1;
      }
    }
  }

  lemma LayerStep(s: State, pris: seq<int>, i: nat, ds: seq<Drawable>, l: int)
    requires i < |pris| && Wf(s) && AllRenderable(ds, l)
    ensures LayerF(s, pris[i..], ds, l) == LayerF(PassF(s, ds, pris[i], l), pris[i + 1..], ds, l)
  {
    assert pris[i..][1..] == pris[i + 1..];
  }

  lemma CallsStep(pris: seq<int>, i: nat, order: seq<nat>)
    requires i < |pris|
    ensures Calls(pris[i..], order) == Row(pris[i], order) + Calls(pris[i + 1..], order)
  {
    assert pris[i..][1..] == pris[i + 1..];
  }

  lemma CallsAssoc(a: seq<(int, nat)>, b: seq<(int, nat)>, c: seq<(int, nat)>)
    ensures a + b + c == a + (b + c)
  {}

  /** A traversal calls `draw` once for each pair of a registered priority
      and a live drawable, and makes every call at one priority before any
      call at a higher one. */
  lemma DrawLayerCalls(priorities: seq<int>, order: seq<nat>, live: map<nat, Drawable>)
    requires Sorted(priorities) && Enumerates(order, live)
    ensures var c := Calls(priorities, order);
      && |c| == |priorities| * |order|
      && (forall pri, h :: (pri, h) in c <==> pri in priorities && h in live)
      && (forall i, j :: 0 <= i < j < |c| ==> c[i].0 <= c[j].0)
  {
    CallsCover(priorities, order);
    CallsOrdered(priorities, order);
  }
}
