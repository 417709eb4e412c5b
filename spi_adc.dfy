/** host_software/spi_adc_test.c: a ten-bit serial ADC on chip select 0 of
    the SPI bus of host_software/spi_test.c (the same port A lines, and the
    same `spi_init`, `spi_set_cs` and `spi_clear_cs`), read by clocking it
    by hand: three pulses to start the conversion, then ten pulses with MISO
    sampled while the clock is high. */
module SpiAdc {
  import opened Busyboard
  import opened Spi

  // ---------------------------------------------------------------------
  // The clock helpers

  /** `spi_set_clk`. */
  function SetClkF(t: bv32, out: seq<bv8>): (r: After)
    requires |out| == NPorts
    ensures |r.out| == NPorts
  {
    var o := out[0 := ClockHigh(out[0])];
    After([Wrote(t, o)], o)
  }

  /** `spi_clear_clk`. */
  function ClearClkF(t: bv32, out: seq<bv8>): (r: After)
    requires |out| == NPorts
    ensures |r.out| == NPorts
  {
    var o := out[0 := ClockLow(out[0])];
    After([Wrote(t, o)], o)
  }

  lemma HighKeepsRest(a: bv8)
    ensures ClockHigh(a) & 0xfe == a & 0xfe
  {
  }

  lemma LowKeepsRest(a: bv8)
    ensures ClockLow(a) & 0xfe == a & 0xfe
  {
  }

  /** `spi_set_clk` and `spi_clear_clk` change bit 0 of port A and nothing
      else, and write it out once. */
  lemma ClockHelpers(t: bv32, out: seq<bv8>)
    requires |out| == NPorts
    ensures var o := SetClkF(t, out).out;
      o[1..] == out[1..] && o[0] & 0xfe == out[0] & 0xfe && Clock(o[0])
      && SetClkF(t, out).ops == [Wrote(t, o)]
    ensures var o := ClearClkF(t, out).out;
      o[1..] == out[1..] && o[0] & 0xfe == out[0] & 0xfe && !Clock(o[0])
      && ClearClkF(t, out).ops == [Wrote(t, o)]
  {
    HighKeepsRest(out[0]);
    LowKeepsRest(out[0]);
    RoundHighClock(out[0]);
    ClockLowClock(out[0]);
    assert out[0 := ClockHigh(out[0])][1..] == out[1..];
    assert out[0 := ClockLow(out[0])][1..] == out[1..];
  }

  lemma ClockLowClock(a: bv8)
    ensures !Clock(ClockLow(a))
  {
  }

  // ---------------------------------------------------------------------
  // `spi_adc_read`, as functions of the state before

  /** One dummy pulse: `spi_set_clk`, then `spi_clear_clk`. */
  function PulseF(t: bv32, out: seq<bv8>): (r: After)
    requires |out| == NPorts
    ensures |r.out| == NPorts
  {
    var l := out[0 := RoundEnd(out[0])];
    After([Wrote(t, out[0 := ClockHigh(out[0])]), Wrote(t, l)], l)
  }

  /** `n` dummy pulses. */
  function Pulses(t: bv32, out: seq<bv8>, n: nat): (r: After)
    requires |out| == NPorts
    ensures |r.out| == NPorts
  {
    if n == 0 then After([], out)
    else
      var pre := Pulses(t, out, n - 1);
      var last := PulseF(t, pre.out);
      After(pre.ops + last.ops, last.out)
  }

  /** One sampling pulse in which `busyboard_in` samples `p`: the clock
      raised and written out, the sample (after which `busyboard_in`
      writes the outputs out again), the clock lowered and written out. */
  function SampleF(t: bv32, out: seq<bv8>, p: seq<bv8>): (r: After)
    requires |out| == NPorts
    ensures |r.out| == NPorts
  {
    var h := out[0 := ClockHigh(out[0])];
    var l := out[0 := RoundEnd(out[0])];
    After([Wrote(t, h), Sampled(p), Wrote(t, h), Wrote(t, l)], l)
  }

  /** One sampling pulse per sample of `ps`, the first first. */
  function SampleRounds(t: bv32, out: seq<bv8>, ps: seq<seq<bv8>>): (r: After)
    requires |out| == NPorts
    ensures |r.out| == NPorts
    decreases |ps|
  {
    if ps == [] then After([], out)
    else
      var pre := SampleRounds(t, out, ps[..|ps| - 1]);
      var last := SampleF(t, pre.out, ps[|ps| - 1]);
      After(pre.ops + last.ops, last.out)
  }

  /** The number of start pulses and of samples. */
  const StartPulses: nat := 3
  const AdcBits: nat := 10

  /** `spi_adc_read` with the samples `ps`: device 0 selected, the start
      pulses, the sampling pulses and every select released. */
  function AdcReadF(t: bv32, out: seq<bv8>, ps: seq<seq<bv8>>): (r: After)
    requires |out| == NPorts
    ensures |r.out| == NPorts
  {
    var s := SetCsF(t, out, 0);
    var d := Pulses(t, s.out, StartPulses);
    var r := SampleRounds(t, d.out, ps);
    var e := ClearCsF(t, r.out);
    After(s.ops + d.ops + r.ops + e.ops, e.out)
  }

  /** `val = (val << 1) | (in_state[1] & 1)` over the samples: the MISO
      bits as a binary number, the first the most significant. (On the
      non-negative values below 2^30 that occur here, `val << 1` is
      `2 * val` and the OR with a bit into the cleared bit 0 is an
      addition.) */
  function AdcValue(ps: seq<seq<bv8>>): int
    decreases |ps|
  {
    if ps == [] then 0
    else 2 * AdcValue(ps[..|ps| - 1]) + (if Miso(ps[|ps| - 1]) then 1 else 0)
  }

  function Pow2(n: nat): (r: nat)
    ensures r >= 1
  {
    if n == 0 then 1 else 2 * Pow2(n - 1)
  }

  /** `n` samples give a value in [0, 2^n). */
  lemma {:induction false} AdcValueRange(ps: seq<seq<bv8>>)
    ensures 0 <= AdcValue(ps) < Pow2(|ps|)
    decreases |ps|
  {
    if ps != [] {
      AdcValueRange(ps[..|ps| - 1]);
    }
  }

  /** Ten samples give a value in [0, 1023]. */
  lemma AdcValueTenBits(ps: seq<seq<bv8>>)
    requires |ps| == AdcBits
    ensures 0 <= AdcValue(ps) <= 1023
  {
    AdcValueRange(ps);
    assert Pow2(10) == 1024;
  }

  /** Samples taken one after the other: the value of the first ones
      shifted up past the later ones. */
  lemma {:induction false} AdcValueAppend(ps: seq<seq<bv8>>, qs: seq<seq<bv8>>)
    ensures AdcValue(ps + qs) == AdcValue(ps) * Pow2(|qs|) + AdcValue(qs)
    decreases |qs|
  {
    if qs == [] {
      assert ps + qs == ps;
    } else {
      var n := |qs| - 1;
      assert (ps + qs)[..|ps + qs| - 1] == ps + qs[..n];
      assert (ps + qs)[|ps + qs| - 1] == qs[n];
      AdcValueAppend(ps, qs[..n]);
      assert Pow2(|qs|) == 2 * Pow2(n);
      MulTwo(AdcValue(ps), Pow2(n));
    }
  }

  lemma MulTwo(a: int, p: int)
    ensures a * (2 * p) == 2 * (a * p)
  {
  }

  /** The first sample is the most significant bit: a set MISO on the
      first of ten samples gives at least 512, a clear one less. */
  lemma AdcFirstSample(ps: seq<seq<bv8>>)
    requires |ps| == AdcBits
    ensures Miso(ps[0]) <==> AdcValue(ps) >= 512
  {
    var first, rest := [ps[0]], ps[1..];
    assert ps == first + rest;
    AdcValueAppend(first, rest);
    AdcValueRange(rest);
    assert |rest| == 9 && Pow2(9) == 512;
    assert first[..0] == [];
    var b := AdcValue(first);
    assert b == if Miso(ps[0]) then 1 else 0;
    assert AdcValue(ps) == b * 512 + AdcValue(rest);
  }

  // ---------------------------------------------------------------------
  // What the ADC sees

  /** However many pulses, port A ends as after one. */
  lemma {:induction false} PulsesOut(t: bv32, out: seq<bv8>, n: nat)
    requires |out| == NPorts
    ensures Pulses(t, out, n).out == if n == 0 then out else out[0 := RoundEnd(out[0])]
  {
    if n > 1 {
      PulsesOut(t, out, n - 1);
      RoundEndTwice(out[0]);
      assert out[0 := RoundEnd(out[0])][0 := RoundEnd(RoundEnd(out[0]))] == out[0 := RoundEnd(out[0])];
    }
  }

  /** However many sampling pulses, port A ends as after one. */
  lemma {:induction false} SampleRoundsOut(t: bv32, out: seq<bv8>, ps: seq<seq<bv8>>)
    requires |out| == NPorts
    ensures SampleRounds(t, out, ps).out == if ps == [] then out else out[0 := RoundEnd(out[0])]
    decreases |ps|
  {
    if |ps| > 1 {
      SampleRoundsOut(t, out, ps[..|ps| - 1]);
      RoundEndTwice(out[0]);
      assert out[0 := RoundEnd(out[0])][0 := RoundEnd(RoundEnd(out[0]))] == out[0 := RoundEnd(out[0])];
    } else if |ps| == 1 {
      assert ps[..0] == [];
    }
  }

  /** A pulse is one rising edge for a selected device, which samples
      MOSI ... */
  lemma PulseSelected(j: nat, d: Device, t: bv32, out: seq<bv8>)
    requires j < 6 && |out| == NPorts && !d.clk && d.selected && Selected(out[0], j)
    ensures WatchAll(j, d, PulseF(t, out).ops) == d.(shifted := d.shifted + [MosiLine(out[0])])
  {
    var h := out[0 := ClockHigh(out[0])];
    var l := out[0 := RoundEnd(out[0])];
    RoundLines(out[0]);
    WatchPair(j, d, Wrote(t, h), Wrote(t, l));
  }

  /** ... and nothing for a device not selected. */
  lemma PulseUnselected(j: nat, d: Device, t: bv32, out: seq<bv8>)
    requires j < 6 && |out| == NPorts && !d.clk && !d.selected && d.shifted == [] && !Selected(out[0], j)
    ensures WatchAll(j, d, PulseF(t, out).ops) == d
  {
    var h := out[0 := ClockHigh(out[0])];
    var l := out[0 := RoundEnd(out[0])];
    RoundLines(out[0]);
    WatchPair(j, d, Wrote(t, h), Wrote(t, l));
  }

  /** So is a sampling pulse: the sample and the repeated snapshot bring
      no edge. */
  lemma SampleSelected(j: nat, d: Device, t: bv32, out: seq<bv8>, p: seq<bv8>)
    requires j < 6 && |out| == NPorts && !d.clk && d.selected && Selected(out[0], j)
    ensures WatchAll(j, d, SampleF(t, out, p).ops) == d.(shifted := d.shifted + [MosiLine(out[0])])
  {
    var h := out[0 := ClockHigh(out[0])];
    var l := out[0 := RoundEnd(out[0])];
    RoundLines(out[0]);
    WatchQuad(j, d, Wrote(t, h), Sampled(p), Wrote(t, h), Wrote(t, l));
    var d1 := Watch(j, d, Wrote(t, h));
    assert d1 == Device(true, true, d.shifted + [MosiLine(out[0])], d.frames);
  }

  lemma SampleUnselected(j: nat, d: Device, t: bv32, out: seq<bv8>, p: seq<bv8>)
    requires j < 6 && |out| == NPorts && !d.clk && !d.selected && d.shifted == [] && !Selected(out[0], j)
    ensures WatchAll(j, d, SampleF(t, out, p).ops) == d
  {
    var h := out[0 := ClockHigh(out[0])];
    var l := out[0 := RoundEnd(out[0])];
    RoundLines(out[0]);
    WatchQuad(j, d, Wrote(t, h), Sampled(p), Wrote(t, h), Wrote(t, l));
  }

  /** `n` pulses are `n - 1` pulses and then one more. */
  lemma PulsesStep(j: nat, d: Device, t: bv32, out: seq<bv8>, n: nat)
    requires j < 6 && |out| == NPorts && n > 0
    ensures var pre := Pulses(t, out, n - 1);
      WatchAll(j, d, Pulses(t, out, n).ops)
      == WatchAll(j, WatchAll(j, d, pre.ops), PulseF(t, pre.out).ops)
  {
    var pre := Pulses(t, out, n - 1);
    WatchAppend(j, d, pre.ops, PulseF(t, pre.out).ops);
  }

  /** The last of `n` pulses, from a port A whose lines are those of
      `out`, seen by a selected device ... */
  lemma LastPulseSelected(j: nat, d: Device, t: bv32, out: seq<bv8>, n: nat)
    requires j < 6 && |out| == NPorts && n > 0 && !d.clk && d.selected && Selected(out[0], j)
    ensures var pre := Pulses(t, out, n - 1);
      WatchAll(j, d, PulseF(t, pre.out).ops) == d.(shifted := d.shifted + [MosiLine(out[0])])
  {
    var pre := Pulses(t, out, n - 1);
    PulsesOut(t, out, n - 1);
    var a := pre.out[0];
    if n > 1 {
      RoundLines(out[0]);
      assert a == RoundEnd(out[0]);
    }
    assert Cs(a) == Cs(out[0]) && MosiLine(a) == MosiLine(out[0]);
    PulseSelected(j, d, t, pre.out);
  }

  /** ... and by one not selected. */
  lemma LastPulseUnselected(j: nat, d: Device, t: bv32, out: seq<bv8>, n: nat)
    requires j < 6 && |out| == NPorts && n > 0 && !d.clk && !d.selected && d.shifted == [] && !Selected(out[0], j)
    ensures var pre := Pulses(t, out, n - 1);
      WatchAll(j, d, PulseF(t, pre.out).ops) == d
  {
    var pre := Pulses(t, out, n - 1);
    PulsesOut(t, out, n - 1);
    var a := pre.out[0];
    if n > 1 {
      RoundLines(out[0]);
      assert a == RoundEnd(out[0]);
    }
    assert Cs(a) == Cs(out[0]);
    PulseUnselected(j, d, t, pre.out);
  }

  /** `n` pulses: a MOSI copy per pulse for a selected device ... */
  lemma {:induction false} PulsesSelected(j: nat, d: Device, t: bv32, out: seq<bv8>, n: nat)
    requires j < 6 && |out| == NPorts && !d.clk && !Clock(out[0]) && d.selected && Selected(out[0], j)
    ensures WatchAll(j, d, Pulses(t, out, n).ops) == d.(shifted := d.shifted + Repeat(MosiLine(out[0]), n))
  {
    if n == 0 {
      assert d.shifted + Repeat(MosiLine(out[0]), 0) == d.shifted;
    } else {
      var v := MosiLine(out[0]);
      PulsesStep(j, d, t, out, n);
      PulsesSelected(j, d, t, out, n - 1);
      var d1 := d.(shifted := d.shifted + Repeat(v, n - 1));
      LastPulseSelected(j, d1, t, out, n);
      var d2 := d1.(shifted := d1.shifted + [v]);
      assert WatchAll(j, d, Pulses(t, out, n).ops) == d2;
      RepeatSnoc(d.shifted, v, n - 1);
      assert d2 == d.(shifted := d.shifted + Repeat(v, n));
    }
  }

  /** ... and nothing for the others. */
  lemma {:induction false} PulsesUnselected(j: nat, d: Device, t: bv32, out: seq<bv8>, n: nat)
    requires j < 6 && |out| == NPorts && !d.clk && !Clock(out[0]) && !d.selected && d.shifted == [] && !Selected(out[0], j)
    ensures WatchAll(j, d, Pulses(t, out, n).ops) == d
  {
    if n > 0 {
      PulsesStep(j, d, t, out, n);
      PulsesUnselected(j, d, t, out, n - 1);
      LastPulseUnselected(j, d, t, out, n);
    }
  }

  /** The last sampling pulse, from a port A whose lines are those of
      `out`. */
  lemma SamplesStep(j: nat, d: Device, t: bv32, out: seq<bv8>, ps: seq<seq<bv8>>)
    requires j < 6 && |out| == NPorts && ps != []
    ensures var pre := SampleRounds(t, out, ps[..|ps| - 1]);
      WatchAll(j, d, SampleRounds(t, out, ps).ops)
      == WatchAll(j, WatchAll(j, d, pre.ops), SampleF(t, pre.out, ps[|ps| - 1]).ops)
      && Cs(pre.out[0]) == Cs(out[0]) && !Clock(pre.out[0]) == (|ps| > 1 || !Clock(out[0]))
      && MosiLine(pre.out[0]) == MosiLine(out[0])
  {
    var pre := SampleRounds(t, out, ps[..|ps| - 1]);
    SampleRoundsOut(t, out, ps[..|ps| - 1]);
    RoundLines(out[0]);
    WatchAppend(j, d, pre.ops, SampleF(t, pre.out, ps[|ps| - 1]).ops);
  }

  /** The sampling pulses: a MOSI copy per sample for a selected device
      ... */
  lemma {:induction false} SamplesSelected(j: nat, d: Device, t: bv32, out: seq<bv8>, ps: seq<seq<bv8>>)
    requires j < 6 && |out| == NPorts && !d.clk && !Clock(out[0]) && d.selected && Selected(out[0], j)
    ensures WatchAll(j, d, SampleRounds(t, out, ps).ops) == d.(shifted := d.shifted + Repeat(MosiLine(out[0]), |ps|))
    decreases |ps|
  {
    if ps == [] {
      assert d.shifted + Repeat(MosiLine(out[0]), 0) == d.shifted;
    } else {
      var n := |ps| - 1;
      SamplesStep(j, d, t, out, ps);
      SamplesSelected(j, d, t, out, ps[..n]);
      var pre := SampleRounds(t, out, ps[..n]);
      SampleSelected(j, WatchAll(j, d, pre.ops), t, pre.out, ps[n]);
      EdgesStep(d.shifted, MosiLine(out[0]), false, n);
    }
  }

  /** ... and nothing for the others. */
  lemma {:induction false} SamplesUnselected(j: nat, d: Device, t: bv32, out: seq<bv8>, ps: seq<seq<bv8>>)
    requires j < 6 && |out| == NPorts && !d.clk && !Clock(out[0]) && !d.selected && d.shifted == [] && !Selected(out[0], j)
    ensures WatchAll(j, d, SampleRounds(t, out, ps).ops) == d
    decreases |ps|
  {
    if ps != [] {
      var n := |ps| - 1;
      SamplesStep(j, d, t, out, ps);
      SamplesUnselected(j, d, t, out, ps[..n]);
      var pre := SampleRounds(t, out, ps[..n]);
      SampleUnselected(j, d, t, pre.out, ps[n]);
    }
  }

  lemma RepeatAppend(v: bool, m: nat, n: nat)
    ensures Repeat(v, m) + Repeat(v, n) == Repeat(v, m + n)
  {
  }

  lemma RepeatSnoc(s: seq<bool>, v: bool, n: nat)
    ensures s + Repeat(v, n) + [v] == s + Repeat(v, n + 1)
  {
    assert Repeat(v, n) + [v] == Repeat(v, n + 1);
  }

  /** A read from an idle bus, as the ADC (device 0) sees it: one
      selection with a rising clock edge per start pulse and per sample. */
  lemma AdcSeen(d: Device, t: bv32, out: seq<bv8>, ps: seq<seq<bv8>>)
    requires Idle(out) && Quiet(d)
    ensures WatchAll(0, d, AdcReadF(t, out, ps).ops)
      == d.(frames := d.frames + [Repeat(MosiLine(out[0]), StartPulses + |ps|)])
  {
    var s := SetCsF(t, out, 0);
    var p := Pulses(t, s.out, StartPulses);
    var r := SampleRounds(t, p.out, ps);
    var e := ClearCsF(t, r.out);
    var v := MosiLine(out[0]);
    SetCsWatched(0, d, t, out, 0);
    SelectLines(out[0], 0);
    var d1 := Device(true, false, [], d.frames);
    PulsesSelected(0, d1, t, s.out, StartPulses);
    PulsesOut(t, s.out, StartPulses);
    RoundLines(s.out[0]);
    var d2 := d1.(shifted := [] + Repeat(v, StartPulses));
    SamplesSelected(0, d2, t, p.out, ps);
    SampleRoundsOut(t, p.out, ps);
    RoundLines(p.out[0]);
    var d3 := d2.(shifted := d2.shifted + Repeat(v, |ps|));
    ClearCsWatched(0, d3, t, r.out);
    WatchAppend(0, d, s.ops, p.ops);
    WatchAppend(0, d, s.ops + p.ops, r.ops);
    WatchAppend(0, d, s.ops + p.ops + r.ops, e.ops);
    RepeatAppend(v, StartPulses, |ps|);
    assert [] + Repeat(v, StartPulses) == Repeat(v, StartPulses);
  }

  /** ... as every other device sees it: nothing. */
  lemma AdcUnseen(j: nat, d: Device, t: bv32, out: seq<bv8>, ps: seq<seq<bv8>>)
    requires 0 < j < 6 && Idle(out) && Quiet(d)
    ensures WatchAll(j, d, AdcReadF(t, out, ps).ops) == d
  {
    var s := SetCsF(t, out, 0);
    var p := Pulses(t, s.out, StartPulses);
    var r := SampleRounds(t, p.out, ps);
    var e := ClearCsF(t, r.out);
    SetCsWatched(j, d, t, out, 0);
    SelectLines(out[0], 0);
    PulsesUnselected(j, d, t, s.out, StartPulses);
    PulsesOut(t, s.out, StartPulses);
    RoundLines(s.out[0]);
    SamplesUnselected(j, d, t, p.out, ps);
    SampleRoundsOut(t, p.out, ps);
    RoundLines(p.out[0]);
    ClearCsWatched(j, d, t, r.out);
    WatchAppend(j, d, s.ops, p.ops);
    WatchAppend(j, d, s.ops + p.ops, r.ops);
    WatchAppend(j, d, s.ops + p.ops + r.ops, e.ops);
  }

  /** The bus is idle again after a read. */
  lemma AdcIdle(t: bv32, out: seq<bv8>, ps: seq<seq<bv8>>)
    requires Idle(out)
    ensures Idle(AdcReadF(t, out, ps).out)
  {
    var s := SetCsF(t, out, 0);
    var p := Pulses(t, s.out, StartPulses);
    var r := SampleRounds(t, p.out, ps);
    SelectLines(out[0], 0);
    PulsesOut(t, s.out, StartPulses);
    RoundLines(s.out[0]);
    SampleRoundsOut(t, p.out, ps);
    RoundLines(p.out[0]);
    ClearCsWatched(0, Device(false, false, [], []), t, r.out);
  }

  /** A read from an idle bus: the bus is idle again, the ADC (device 0)
      has seen one selection with a rising clock edge per start pulse and
      per sample, and every other device has seen nothing. */
  lemma AdcReadWatched(j: nat, d: Device, t: bv32, out: seq<bv8>, ps: seq<seq<bv8>>)
    requires j < 6 && Idle(out) && Quiet(d)
    ensures Idle(AdcReadF(t, out, ps).out)
    ensures WatchAll(j, d, AdcReadF(t, out, ps).ops)
      == if j == 0 then d.(frames := d.frames + [Repeat(MosiLine(out[0]), StartPulses + |ps|)]) else d
  {
    AdcIdle(t, out, ps);
    if j == 0 {
      AdcSeen(d, t, out, ps);
    } else {
      AdcUnseen(j, d, t, out, ps);
    }
  }

  // ---------------------------------------------------------------------
  // The host side

  /** `spi_set_clk`. */
  method SetClk(b: Board)
    requires b.Valid()
    modifies b, b.outState
    ensures b.Valid() && b.trimask == old(b.trimask)
    ensures b.log == old(b.log) + SetClkF(b.trimask, old(b.outState[..])).ops
    ensures b.outState[..] == SetClkF(b.trimask, old(b.outState[..])).out
  {
    b.outState[0] := ClockHigh(b.outState[0]);
    Snapshot(b);
  }

  /** `spi_clear_clk`. */
  method ClearClk(b: Board)
    requires b.Valid()
    modifies b, b.outState
    ensures b.Valid() && b.trimask == old(b.trimask)
    ensures b.log == old(b.log) + ClearClkF(b.trimask, old(b.outState[..])).ops
    ensures b.outState[..] == ClearClkF(b.trimask, old(b.outState[..])).out
  {
    b.outState[0] := ClockLow(b.outState[0]);
    Snapshot(b);
  }

  /** One pass of the start loop. */
  method Pulse(b: Board)
    requires b.Valid()
    modifies b, b.outState
    ensures b.Valid() && b.trimask == old(b.trimask)
    ensures b.log == old(b.log) + PulseF(b.trimask, old(b.outState[..])).ops
    ensures b.outState[..] == PulseF(b.trimask, old(b.outState[..])).out
  {
    ghost var out := b.outState[..];
    SetClk(b);
    ClearClk(b);
    assert b.outState[..] == out[0 := RoundEnd(out[0])];
  }

  /** One pass of the sampling loop: `val` shifted and MISO ORed in. */
  method SampleOnce(b: Board, val: int) returns (val': int, ghost p: seq<bv8>)
    requires b.Valid()
    modifies b, b.outState, b.inState
    ensures b.Valid() && b.trimask == old(b.trimask)
    ensures val' == 2 * val + (if Miso(p) then 1 else 0)
    ensures b.log == old(b.log) + SampleF(b.trimask, old(b.outState[..]), p).ops
    ensures b.outState[..] == SampleF(b.trimask, old(b.outState[..]), p).out
  {
    ghost var log0, t, out := b.log, b.trimask, b.outState[..];
    SetClk(b);
    ghost var h := b.outState[..];
    p := Poll(b);
    val' := 2 * val + (if b.inState[1] & 1 == 1 then 1 else 0);
    ghost var log1 := b.log;
    ClearClk(b);
    SampleShape(t, out, p);
    assert b.log == log0 + [Wrote(t, h), Sampled(p), Wrote(t, h)] + ClearClkF(t, h).ops;
  }

  /** A sampling pulse is `spi_set_clk`, the sample, and `spi_clear_clk`. */
  lemma SampleShape(t: bv32, out: seq<bv8>, p: seq<bv8>)
    requires |out| == NPorts
    ensures var h := SetClkF(t, out).out;
      SampleF(t, out, p).ops == SetClkF(t, out).ops + [Sampled(p), Wrote(t, h)] + ClearClkF(t, h).ops
      && SampleF(t, out, p).out == ClearClkF(t, h).out
  {
    var h := out[0 := ClockHigh(out[0])];
    assert h[0 := ClockLow(h[0])] == out[0 := RoundEnd(out[0])];
  }

  /** `spi_adc_read`; `ps` are the samples `busyboard_in` takes. */
  method AdcRead(b: Board) returns (val: int, ghost ps: seq<seq<bv8>>)
    requires b.Valid()
    modifies b, b.outState, b.inState
    ensures b.Valid() && b.trimask == old(b.trimask)
    ensures |ps| == AdcBits && val == AdcValue(ps) && 0 <= val <= 1023
    ensures b.log == old(b.log) + AdcReadF(b.trimask, old(b.outState[..]), ps).ops
    ensures b.outState[..] == AdcReadF(b.trimask, old(b.outState[..]), ps).out
  {
    ghost var t := b.trimask;
    SetCs(b, 0);
    ghost var log1, out1 := b.log, b.outState[..];
    var i := 0;
    while i < 3
      invariant 0 <= i <= 3 && b.Valid() && b.trimask == t
      invariant b.log == log1 + Pulses(t, out1, i).ops
      invariant b.outState[..] == Pulses(t, out1, i).out
    {
      Pulse(b);
      SeqAssoc(log1, Pulses(t, out1, i).ops, PulseF(t, Pulses(t, out1, i).out).ops);
      i := i + 1;
    }
    ghost var log2, out2 := b.log, b.outState[..];
    ps := [];
    i := 0;
    val := 0;
    while i < 10
      invariant 0 <= i <= 10 && b.Valid() && b.trimask == t
      invariant |ps| == i && val == AdcValue(ps)
      invariant b.log == log2 + SampleRounds(t, out2, ps).ops
      invariant b.outState[..] == SampleRounds(t, out2, ps).out
    {
      ghost var p;
      val, p := SampleOnce(b, val);
      assert (ps + [p])[..|ps|] == ps;
      SeqAssoc(log2, SampleRounds(t, out2, ps).ops, SampleF(t, SampleRounds(t, out2, ps).out, p).ops);
      ps := ps + [p];
      i := i + 1;
    }
    ClearCs(b);
    AdcValueTenBits(ps);
    ghost var s := SetCsF(t, old(b.outState[..]), 0);
    CommandLog(old(b.log), s.ops, Pulses(t, out1, 3).ops, SampleRounds(t, out2, ps).ops, ClearCsF(t, b.outState[..]).ops);
  }

  // ---------------------------------------------------------------------
  // `plot`

  /** C's `/` on `int`: the quotient truncated toward zero. */
  function CDiv(a: int, b: int): int
    requires b > 0
  {
    if a >= 0 then a / b else -((-a) / b)
  }

  /** The number of spaces `plot(x)` writes: `x * 79 / 1023`, nothing when
      that is negative. */
  function Indent(x: int): nat
  {
    var w := CDiv(x * 79, 1023);
    if w < 0 then 0 else w
  }

  /** What `plot(x)` writes: the spaces, a star and a newline. */
  function PlotText(x: int): (r: string)
  {
    seq(Indent(x), _ => ' ') + "*\n"
  }

  /** `plot`, with its output returned. `x * 79` must fit in a C `int`. */
  method Plot(x: int) returns (s: string)
    requires -0x8000_0000 <= x * 79 < 0x8000_0000
    ensures s == PlotText(x)
  {
    var w := CDiv(x * 79, 1023);
    s := "";
    var i := 0;
    while i < w
      invariant 0 <= i <= (if w < 0 then 0 else w)
      invariant s == seq(i, _ => ' ')
    {
      s := s + " ";
      i := i + 1;
    }
    assert i == Indent(x);
    s := s + "*\n";
  }

  /** A reading of the ADC is plotted at most 79 columns in; 0 at column
      0, full scale at column 79, and a larger reading never further
      left. */
  lemma PlotScale(x: int, y: int)
    requires 0 <= x <= y <= 1023
    ensures Indent(x) <= Indent(y) <= 79
    ensures Indent(0) == 0 && Indent(1023) == 79
    ensures |PlotText(x)| == Indent(x) + 2
    ensures forall k :: 0 <= k < Indent(x) ==> PlotText(x)[k] == ' '
  {
    assert x * 79 <= y * 79 <= 1023 * 79;
  }
}
