# Chad's board thing and busyboard host software, modelled in Dafny

The project has three parts.

- **Board output** (`board/board.cpp`). A `gerber` object writes an
  RS-274X photoplot: a header, polarity changes (`%LPD*%` / `%LPC*%`),
  circular apertures declared once and cached by diameter (`D10`, `D11`,
  ...), and moves, draws and flashes. Coordinates are printed in the 2.6
  inch format, and an axis whose value did not change is left out. A
  registry of drawables (tracks, vias, text) draws one layer by visiting
  every registered priority in ascending order and asking every
  drawable to draw itself at that priority.
- **Busyboard host software** (`host_software/`). The busyboard is a
  board with six 8-bit output ports, eight tristate-enable bits and six
  input ports. The host reaches it through a 56-bit output shift
  register and a 48-bit input shift register, driven by four
  parallel-port control lines and one data line. On top of that library
  the test programs do the following:
  - bit-bang SPI to a serial SRAM and to a 10-bit ADC;
  - drive an HD44780-style character LCD;
  - play the memory of a Z80 and of a 65C02;
  - write and read an SRAM and a 28C256 EEPROM.
- **Netlist pin map** (`netlist/netlist_map.cpp`). `read_chdl_module`
  and `read_pmap` read the `PMAP` file, which gives for each CHDL module
  the role of each package pin: a rail (`vdd`, `gnd`), `nc`, or the
  number of a CHDL port.

How the model is built:

- **Gerber emitter.** `Gerber.Emitter` is a class with the emitter's
  own fields. Every method is proved against a function on the
  `Gerber.State` value (`SetDarkF`, `DrawF`, ...). The output file is a
  sequence of lines.
- **Busyboard.** `Busyboard.Board` keeps the two port arrays, the
  tristate mask, the trace of `set_bit`/`read_data` events, and an
  abstract log of `Op`s (a snapshot written out, or the input ports
  sampled). The protocol lemmas prove that this log is what the trace
  means:
  - an output shift register fed the events receives exactly the
    snapshot;
  - each input bit comes from the right status read.
- **Test programs.** These are specified against that log. Each
  program's log is then read through a model of the device on the other
  end:
  - `Spi.Device` for an SPI slave;
  - `Lcd.Controller` and `Lcd.Screen` for the display;
  - a byte map for the memory chips.
- **CPU loops.** Each CPU test's `main` loop is specified by a pass
  function (`Z80.PassF`, `Cpu65c02.PassF`) on the five port samples one
  pass takes, and by its fold over the passes in order (`RunF`). `Run`
  returns the samples of every pass as a ghost result and ends in the
  state of that fold.
- **Netlist.** The netlist code is pure stream processing and is
  modelled as functions on the input text. `Netlist.PinMap` holds the
  three global maps and is updated in place.

## Model

| member | source | states |
|---|---|---|
| Gerber.Emitter.constructor | board/board.cpp:258-263 | a new emitter has written the three header lines and has no mode, point or aperture set |
| Gerber.Emitter.Close | board/board.cpp:54 | destroying the emitter appends the end-of-file line `M02*` and changes nothing else |
| Gerber.Emitter.SetDark | board/board.cpp:288-293 | the emitter's state becomes the dark-polarity transition of the old state |
| Gerber.Emitter.SetClear | board/board.cpp:295-300 | the emitter's state becomes the clear-polarity transition of the old state |
| Gerber.Emitter.SetAperture | board/board.cpp:192-213 | the emitter's state becomes the aperture transition; the cache invariant (codes are `D10`.. in declaration order, all distinct) is kept |
| Gerber.Emitter.Move | board/board.cpp:216-221 | a move sets the point and writes the coordinate relative to the old point followed by `D02*` |
| Gerber.Emitter.Draw | board/board.cpp:224-232 | the result is the first missing precondition in the order point, mode, aperture; on success one `D01*` line is written and the point moves; on abort nothing changes |
| Gerber.Emitter.DrawFrom | board/board.cpp:234-239 | succeeds exactly when mode and aperture are set; a move to `from` is written only when the point is unset or differs, even when the draw then aborts |
| Gerber.Emitter.Flash | board/board.cpp:242-248 | same error order as a draw; on success writes `D03*` and keeps the point |
| Gerber.Emitter.FlashAt | board/board.cpp:250-256 | sets the point first, so it aborts only for a missing mode or aperture; on success writes the coordinate and `D03*` and moves the point |
| Gerber.Check | board/board.cpp:224-227 | a draw or flash may go ahead exactly when point, mode and aperture are all set |
| Gerber.DrawCheckOrder | board/board.cpp:224-227 | each abort code is reported exactly when its condition is the first one that fails |
| Gerber.SetDarkF | board/board.cpp:288-293 | after the call the polarity is dark; `%LPD*%` is written exactly when the mode was unset or clear; nothing else changes |
| Gerber.SetClearF | board/board.cpp:295-300 | after the call the polarity is clear; `%LPC*%` is written exactly when the mode was unset or dark; nothing else changes |
| Gerber.PolarityIdempotent | board/board.cpp:288-300 | setting the same polarity twice writes nothing the second time |
| Gerber.SetApertureF | board/board.cpp:192-213 | the aperture becomes `d`, `d` is in the cache, the cache invariant is kept, and the point and polarity are untouched |
| Gerber.ApertureLines | board/board.cpp:192-213 | the current aperture writes nothing; a cached one writes its code; a new one is declared with the next unused code, then selected |
| Gerber.ApertureIdempotent | board/board.cpp:193 | selecting the same aperture twice in a row writes nothing the second time |
| Gerber.CacheGrow | board/board.cpp:200-203 | adding a diameter gives it the code numbered by the cache size and keeps the codes distinct |
| Gerber.CodesDistinct | board/board.cpp:200-203 | two different cached diameters never share an aperture code |
| Gerber.CodeInjective | board/board.cpp:202 | different cache sizes give different `D` codes, the two-digit zero padding included |
| Gerber.CodeRankOf | board/board.cpp:202 | a `D` code names its cache rank: reading the digits after `D` and subtracting 10 gives the rank back |
| Gerber.MoveF | board/board.cpp:216-221 | the point becomes `to`, setup is unchanged, one coordinate line with `D02*` is appended |
| Gerber.DrawF | board/board.cpp:224-232 | the point becomes `to`, setup is unchanged, one coordinate line with `D01*` is appended |
| Gerber.DrawFromF | board/board.cpp:234-239 | with mode and aperture set, the result is ready and its point is `to` |
| Gerber.DrawFromMovesOnlyWhenNeeded | board/board.cpp:234-239 | when the point already equals `from`, `draw(from, to)` is exactly `draw(to)`; otherwise a move line and a draw line are written |
| Gerber.FlashF | board/board.cpp:242-248 | a flash appends `D03*` and changes nothing else |
| Gerber.FlashAtF | board/board.cpp:250-256 | the point becomes `pt`, setup is unchanged, the coordinate with `D03*` is appended |
| Gerber.Num | board/board.cpp:279-286 | a number is printed with at least seven digits, with a leading minus exactly when it is negative |
| Gerber.NumRoundTrip | board/board.cpp:279-286 | reading back a printed number (integer part, then exactly six fractional digits) gives the number |
| Gerber.MagnitudeLayout | board/board.cpp:285 | the last six digits are the fraction in millionths and the rest is the integer part |
| Gerber.CoordRoundTrip | board/board.cpp:266-276 | decoding a coordinate against the previous point recovers the new point, omitted axes included; with no point set both axes are written |
| Gerber.DrawCompresses | board/board.cpp:266-276 | an axis equal to the previous point's is left out of the coordinate, and both are left out when the point is unchanged |
| Gerber.FirstMoveComparesWithOrigin | board/board.cpp:216-221 | the first move compares with the origin: a move to `(0, y)` writes only the `Y` field |
| Gerber.TrimZeros | board/board.cpp:206 | the fraction of a declared diameter is printed without trailing zeros: a prefix of the six digits that does not end in `0`, and only `0`s were dropped |
| Drawables.TrackDraw | board/board.cpp:313-329 | drawing a track leaves the emitter in the state the track's layer and priority call for |
| Drawables.TrackSetup | board/board.cpp:313-329 | on the track's copper layer, priority −50 draws clear with the clearance aperture and 0 draws dark with the thickness; any other layer or priority writes nothing; the pen ends on the last point |
| Drawables.DrawPath | board/board.cpp:318-326 | the emitter ends in the state of a move to the first point followed by a draw to each further point |
| Drawables.PathWrites | board/board.cpp:318-326 | a track path writes one move to the first point and then one draw line to each following point |
| Drawables.LinesText | board/board.cpp:319-320 | the draw loop appends, for each point, the coordinate relative to the previous point followed by `D01*` |
| Drawables.ViaDraw | board/board.cpp:331-349 | drawing a via leaves the emitter in the state of the corrected via rule |
| Drawables.ViaAsWrittenIgnoresInner | board/board.cpp:331-349 | as written, the drill diameter `inner` never affects the output; on the plated-through-hole layer a via flashes its clearance and outer pad |
| Drawables.ViaLayers | board/board.cpp:331-349 | corrected: on copper layers 2..5 it agrees with the code; on the plated-through-hole layer it flashes `inner` dark at priority 0 and nothing otherwise; other layers write nothing |
| Drawables.ViaFlashes | board/board.cpp:331-349 | every via pass that draws ends with a flash at the centre, in the aperture and polarity its priority names |
| Drawables.DrawStrokes | board/board.cpp:360-364 | the stroke loop draws each pair of scaled glyph points and returns the largest glyph x (0 when none is positive) |
| Drawables.Widen | board/board.cpp:361-362 | after one more pair of glyph points the running width is the largest x over the points seen so far (0 when none is positive) |
| Drawables.MaxXBound | board/board.cpp:357-363 | the width is at least 0, at least every point's x, and equal to one of them when positive |
| Drawables.DrawChar | board/board.cpp:351-369 | a glyph is drawn as its strokes and the pen advances by the character's width |
| Drawables.CharEffect | board/board.cpp:352-359 | a space or a character missing from the font writes nothing; a glyph is drawn dark with aperture scale/5 |
| Drawables.AdvanceGlyph | board/board.cpp:366 | after a glyph the pen moves right by at least 1.3 × scale and stays on the same line |
| Drawables.TextF | board/board.cpp:384-391 | drawing a string keeps the pen on its baseline |
| Drawables.TextDraw | board/board.cpp:384-391 | text draws only at priority −100 on its own layer, one character after another |
| Drawables.DrawOne | board/board.cpp:313-391 | one drawable is drawn by the rule of its kind, a via by the corrected via rule |
| Drawables.Pass | board/board.cpp:187-188 | one priority pass draws every drawable in the enumeration order, vias by the corrected via rule |
| Drawables.Registry.constructor | board/board.cpp:178-179 | a new registry holds no drawables and no priorities |
| Drawables.Registry.AddPriority | board/board.cpp:183 | the priority list stays sorted and gains the priority once |
| Drawables.InsertSorted | board/board.cpp:183 | inserting into the sorted priority set keeps it sorted and adds exactly the new element |
| Drawables.Registry.Register | board/board.cpp:92 | constructing a drawable adds it under a fresh handle |
| Drawables.Registry.Remove | board/board.cpp:93 | destroying a drawable removes exactly it and keeps the priorities |
| Drawables.Registry.AddTrack | board/board.cpp:143-145 | a new track with no points is registered and priorities −50 and 0 are added |
| Drawables.Registry.AddTrackDefault | board/board.cpp:147-149 | the default clearance is 5/4 of the thickness |
| Drawables.Registry.AddPoint | board/board.cpp:151 | the point is appended to that track only |
| Drawables.Registry.AddVia | board/board.cpp:169-171 | a via with the given clearance is registered and priorities −50 and 0 are added |
| Drawables.Registry.AddViaDefault | board/board.cpp:165-167 | the default clearance is 5/4 of the outer diameter |
| Drawables.Registry.AddText | board/board.cpp:120-121 | a text is registered and priority −100 is added |
| Drawables.Registry.DrawLayer | board/board.cpp:185-189 | drawing a layer is one pass per priority in ascending order over every live drawable, and the calls made are exactly the priority × drawable pairs; vias follow the corrected via rule |
| Drawables.DrawLayerCalls | board/board.cpp:185-189 | every (priority, live drawable) pair is drawn exactly once, with priorities non-decreasing |
| Drawables.CallsCover | board/board.cpp:186-187 | the nested loops make |priorities| × |drawables| calls, covering every pair |
| Drawables.Lookup | board/board.cpp:187 | the enumeration visits the registered drawables themselves |
| Busyboard.PortWriteActiveLow | host_software/busyboard.c:125-136 | every control line is active low (level 1 clears its control bit); the data line writes 1 or 0; both latches share one bit |
| Busyboard.Board.constructor | host_software/busyboard.c:31-44 | the mask and outputs start at 0 and the five lines are set to their idle levels in order |
| Busyboard.Board.SetBit | host_software/busyboard.c:125-141 | one line event is appended and nothing else changes |
| Busyboard.Board.ReadData | host_software/busyboard.c:143-149 | the bit read is the status register's ACK bit of the next read |
| Busyboard.Board.Out | host_software/busyboard.c:71-95 | the events are the eight mask bits and the 48 output bits, most significant first, then one latch pulse; the log records the snapshot |
| Busyboard.Board.ShiftMask | host_software/busyboard.c:75-80 | the tristate byte is shifted out from bit 7 down to bit 0, one strobe pulse per bit |
| Busyboard.Board.ShiftByte | host_software/busyboard.c:84-89 | one output port is shifted out from bit 7 down to bit 0 |
| Busyboard.OutRoundTrip | host_software/busyboard.c:71-95 | an output shift register fed these events latches 56 new bits that decode back to the mask byte and the six ports |
| Busyboard.OutBitsDecode | host_software/busyboard.c:74-90 | the 56 shifted bits decode back to the low mask byte and the six port values |
| Busyboard.PortDecode | host_software/busyboard.c:83-90 | port `m` sits in the shift stream at byte `6 - m`, because the ports go out last first |
| Busyboard.OutLatchOnce | host_software/busyboard.c:92-94 | an output update pulses the output latch exactly once, at the very end |
| Busyboard.ShiftOnlyDataStrobe | host_software/busyboard.c:75-90 | shifting touches only the data and strobe lines |
| Busyboard.Board.ReadPorts | host_software/busyboard.c:109-119 | 48 reads fill the six input ports last first |
| Busyboard.Board.ReadPort | host_software/busyboard.c:110-118 | one port is rebuilt from eight reads, first read in bit 7 |
| Busyboard.Board.In | host_software/busyboard.c:97-123 | the inputs are latched and loaded, 48 bits are read, and the outputs are written out again; the log records the sample and then the refresh |
| Busyboard.InputsBit | host_software/busyboard.c:109-119 | bit `7-j` of input port `5-i` is the ACK bit of read number `8i+j` |
| Busyboard.InPortsAt | host_software/busyboard.c:109-114 | the port filled by the `g`-th group of eight reads is that group's byte |
| Busyboard.ByteBits | host_software/busyboard.c:85 | splitting a byte into bits MSB-first and packing them back gives the byte |
| Busyboard.Snapshot | host_software/busyboard.c:71-95 | the library call as the programs use it: the log gains the snapshot |
| Busyboard.Poll | host_software/busyboard.c:97-123 | the log gains the sample returned and the output refresh |
| Spi.Init | host_software/spi_test.c:18-22 | the mask becomes 1 (port A only) and port A becomes `0xfc` (clock and MOSI low, every select released) |
| Spi.ClearCs | host_software/spi_test.c:59-62 | the log gains the snapshot with every select released |
| Spi.ClearCsWatched | host_software/spi_test.c:59-62 | releasing the selects closes the frame of the selected device and deselects every device |
| Spi.SetCs | host_software/spi_test.c:64-69 | the log gains the snapshot in which only select `id` is low |
| Spi.SelectedLine | host_software/spi_test.c:64-68 | after `spi_set_cs(id)` device `j` is selected exactly when `j == id` |
| Spi.SetCsWatched | host_software/spi_test.c:64-69 | a set-select selects device `id` alone and leaves the clock level as it was |
| Spi.SendBit | host_software/spi_test.c:26-37 | one pass of the send loop writes MOSI, then raises the clock, and leaves the clock low in memory only |
| Spi.TakeTop | host_software/spi_test.c:26-27 | the send loop takes the byte's bits most significant first |
| Spi.SendByte | host_software/spi_test.c:24-39 | a byte is sent as its eight bits, MSB first |
| Spi.SendOut | host_software/spi_test.c:24-39 | sending keeps the selects and the other ports, and leaves the clock low in memory and MOSI at the last bit |
| Spi.SendWatched | host_software/spi_test.c:24-39 | the selected device samples exactly the bits sent |
| Spi.SendUnselected | host_software/spi_test.c:24-39 | a device that is not selected samples nothing |
| Spi.Send | host_software/spi_test.c:71-80 | `spi_send` is a set-select followed by the bytes |
| Spi.SpiSendWatched | host_software/spi_test.c:71-80 | from an idle bus, device `id` alone is selected and has sampled every bit of the buffer, in order |
| Spi.RecByte | host_software/spi_test.c:41-57 | the received byte packs the eight MISO samples, first sample in bit 7 |
| Spi.RecByteBits | host_software/spi_test.c:43-55 | bit `7-k` of the received byte is the MISO level of round `k` |
| Spi.RecRound | host_software/spi_test.c:44-55 | one receive round shifts the partial byte left and ORs in the MISO bit |
| Spi.RecWatched | host_software/spi_test.c:41-57 | receive rounds give the selected device one rising edge each, except the first when the clock is already high |
| Spi.Rec | host_software/spi_test.c:82-92 | `spi_rec` fills the buffer with one received byte per eight rounds |
| Spi.ReceivedSnoc | host_software/spi_test.c:90-91 | each further byte of the buffer comes from the next eight rounds |
| Spi.SramWrite | host_software/spi_test.c:94-112 | the log is a release, the five-byte write frame, and a release |
| Spi.SramWriteSeen | host_software/spi_test.c:94-112 | the addressed SRAM receives one frame holding exactly the command, the three address bytes and the data; other devices see nothing |
| Spi.SramWriteOverrun | host_software/spi_test.c:101-106 | as written, the fifth store goes to index 4 of a four-byte buffer |
| Spi.SramWriteFrameStores | host_software/spi_test.c:101-108 | corrected: the five stores fill a five-byte frame, one index each |
| Spi.AddrBytesValue | host_software/spi_test.c:103-105 | the three address bytes reassemble the low 24 bits of the address |
| Spi.SramRead | host_software/spi_test.c:114-133 | the value returned is the byte received after the four-byte read frame |
| Spi.SramReadSeen | host_software/spi_test.c:114-133 | the SRAM sees the read frame and then seven repeats of its last MOSI bit, because the first receive round makes no rising edge |
| Spi.Rdmr | host_software/spi_test.c:135-148 | the value returned is the byte received after command `0x05` |
| Spi.RdmrSeen | host_software/spi_test.c:135-148 | the device sees command `0x05` followed by seven high bits |
| Spi.Wrmr | host_software/spi_test.c:150-159 | the log is the two-byte write-mode frame and a release |
| Spi.WrmrSeen | host_software/spi_test.c:150-159 | the device receives exactly command `0x01` and the mode byte |
| Spi.SramReset | host_software/spi_test.c:161-167 | the log is the one-byte reset frame and a release |
| Spi.ResetSeen | host_software/spi_test.c:161-167 | the device receives exactly the byte `0xff` |
| Spi.CommandWatched | host_software/spi_test.c:94-167 | every SRAM command leaves the bus idle, and device `id` alone gains one frame |
| SpiAdc.SetClk | host_software/spi_adc_test.c:36-39 | the log gains one snapshot with the clock raised |
| SpiAdc.ClearClk | host_software/spi_adc_test.c:41-44 | the log gains one snapshot with the clock lowered |
| SpiAdc.ClockHelpers | host_software/spi_adc_test.c:36-44 | the clock helpers change only bit 0 of port A |
| SpiAdc.AdcRead | host_software/spi_adc_test.c:46-69 | the value is the ten MISO samples read MSB first, so it lies in 0..1023 |
| SpiAdc.SampleOnce | host_software/spi_adc_test.c:58-63 | one sampling round doubles the value and adds the MISO bit |
| SpiAdc.AdcValueRange | host_software/spi_adc_test.c:57-62 | `n` samples give a value below 2^n |
| SpiAdc.AdcFirstSample | host_software/spi_adc_test.c:57-62 | the first sample is the most significant bit: it is high exactly when the value is at least 512 |
| SpiAdc.AdcValueAppend | host_software/spi_adc_test.c:62 | later samples shift earlier ones left |
| SpiAdc.AdcReadWatched | host_software/spi_adc_test.c:46-69 | the ADC (select 0) sees one frame of 3 + 10 rising edges; every other device sees nothing; the bus ends idle |
| SpiAdc.Plot | host_software/spi_adc_test.c:71-78 | the line printed is `x*79/1023` spaces, truncated toward zero, then `*` and a newline |
| SpiAdc.PlotScale | host_software/spi_adc_test.c:74-78 | for readings 0..1023 the indent is monotone and spans 0..79 |
| Lcd.WriteCommand | host_software/lcd_test.c:16-29 | the log is three snapshots: E high with the command, E low, E high |
| Lcd.CommandLatched | host_software/lcd_test.c:16-29 | the controller latches exactly one command transfer of `cmd` |
| Lcd.WriteData | host_software/lcd_test.c:31-43 | the same three snapshots with RS high carry one data byte |
| Lcd.DataLatched | host_software/lcd_test.c:31-43 | the controller latches exactly one character transfer of `data` |
| Lcd.Init | host_software/lcd_test.c:45-60 | the mask becomes `0x3f` and the log is one E-high snapshot then the eight start-up commands |
| Lcd.InitLatched | host_software/lcd_test.c:45-60 | the controller receives the eight start-up commands in order |
| Lcd.SetPos | host_software/lcd_test.c:62-65 | the log is one set-address command |
| Lcd.SetPosAddress | host_software/lcd_test.c:62-65 | the command has bit 7 set and address `(row*40+col) mod 64`, which is the true address when that is below 64 |
| Lcd.WriteStr | host_software/lcd_test.c:67-73 | the log is a move home and then the visible characters |
| Lcd.WriteChars | host_software/lcd_test.c:69-72 | the log is the visible characters of the string (at most 128, up to the first NUL), each as the data write the controller takes |
| Lcd.PutChar | host_software/lcd_test.c:70-71 | the log is one data write, preceded by the move to the second row when the index is 16 |
| Lcd.VisibleSpec | host_software/lcd_test.c:69 | the characters written are the longest NUL-free prefix of the string, at most 128 |
| Lcd.WriteStrLatched | host_software/lcd_test.c:67-73 | the controller receives the move home, the first 16 characters, a move to row 1 when there are more, then the rest |
| Lcd.WriteStrShown | host_software/lcd_test.c:67-73 | the display RAM holds the string at row 0 and continues at row 1 after 16 characters; other cells are unchanged |
| Lcd.ClearScreen | host_software/lcd_test.c:75-77 | clearing writes 32 spaces with the string writer |
| Lcd.ClearShown | host_software/lcd_test.c:75-77 | after a clear, the 16 visible cells of both rows hold spaces |
| CpuBus.SetClk | host_software/z80_test.c:23-28 | the log gains one snapshot with the clock raised |
| CpuBus.ClearClk | host_software/z80_test.c:30-35 | the log gains one snapshot with the clock lowered |
| CpuBus.AssertReset | host_software/z80_test.c:37-42 | the log gains one snapshot with reset pulled low |
| CpuBus.DeassertReset | host_software/z80_test.c:44-49 | the log gains one snapshot with reset released |
| CpuBus.HelpersTouchOneBit | host_software/z80_test.c:23-49 | each helper writes one snapshot and changes only its own bit of port A |
| CpuBus.Init | host_software/z80_test.c:51-62 | the mask becomes 1 and the log is the reset sequence |
| CpuBus.Pulses | host_software/z80_test.c:59 | `n` clock pulses append a raise and a lower of the clock per pulse, and leave the mask as it was |
| CpuBus.InitSnapshots | host_software/z80_test.c:51-62 | 22 snapshots: reset held in all but the last, the clock high exactly at odd steps, and port A ends at `0xfe` |
| CpuBus.ClockPulsesOps | host_software/z80_test.c:58-59 | the ten clock pulses alternate port A between `0xf7` and `0xf6` |
| CpuBus.GetAddr | host_software/z80_test.c:64-67 | the address is port D × 256 + port C, read from one sample, below 65536 |
| CpuBus.AddrRange | host_software/z80_test.c:64-67 | two samples give the same address exactly when ports C and D agree |
| CpuBus.DriveBits | host_software/z80_test.c:145 | driving the data bus sets only the port-B direction bit |
| CpuBus.ReleaseBits | host_software/z80_test.c:147 | releasing the data bus clears only the port-B direction bit |
| Z80.GetStatus | host_software/z80_test.c:84-87 | the status is the complement of port E as an `int` |
| Z80.Status | host_software/z80_test.c:84-87 | the complemented status is negative, between −256 and −1 |
| Z80.StatusLowByte | host_software/z80_test.c:69-87 | a status bit tests set exactly when the active-low pin is low |
| Z80.EmulateCyc | host_software/z80_test.c:135-161 | one bus cycle changes the log, mask, outputs and memory as the cycle function on the three samples taken |
| Z80.ReadCycle | host_software/z80_test.c:138-145 | a read drives port B with `mem[addr]` on a memory request, or 0 on an I/O request, and leaves memory unchanged |
| Z80.OtherCycle | host_software/z80_test.c:146-158 | otherwise port B is released; a memory write stores the sampled port B at the address; nothing else changes |
| Z80.MemoryFrame | host_software/z80_test.c:135-161 | a cycle changes at most the addressed cell, and none without a memory request |
| Z80.WriteThenRead | host_software/z80_test.c:135-161 | a memory write followed by a memory read of the same address drives back the value written |
| Z80.Iteration | host_software/z80_test.c:170-175 | one loop pass leaves the log, mask, outputs and memory as the pass function on its samples: clock raised, the bus cycle, clock lowered, then the address and status samples |
| Z80.PassClock | host_software/z80_test.c:171-173 | a pass serves its cycle with the clock high and leaves the clock low |
| Z80.PassPorts | host_software/z80_test.c:171-174 | a pass changes only the data-bus direction bit of the mask, and of the outputs only the clock bit of port A and port B |
| Z80.PassMemory | host_software/z80_test.c:172 | a pass changes at most the memory cell at the cycle's address, and none without a memory request |
| Z80.CycleKeepsClock | host_software/z80_test.c:135-161 | a bus cycle leaves port A and ports C onwards as they were and changes only the data-bus direction bit of the mask |
| Z80.BusStatus | host_software/z80_test.c:99-100 | the status print samples the address and then the status, leaving the mask and outputs as they were |
| Z80.Run | host_software/z80_test.c:170-175 | `n` passes leave the log, mask, outputs and memory as the passes applied in order, each to its own samples; only the data-bus direction bit and ports A0 and B change, and the clock ends low |
| Z80.Passes | host_software/z80_test.c:170-175 | the loop's `n` passes leave the log, mask, outputs and memory as the passes applied in order, each to its own samples |
| Z80.RunMask | host_software/z80_test.c:170-175 | over any number of passes only the data-bus direction bit of the mask changes |
| Z80.RunOutputs | host_software/z80_test.c:170-175 | over any number of passes only the clock bit of port A and port B change among the outputs |
| Z80.RunClockLow | host_software/z80_test.c:170-175 | after at least one pass the clock is low |
| Z80.RunMemory | host_software/z80_test.c:170-175 | a memory cell that no pass addresses keeps its value over the loop |
| HexDump.DumpHex | host_software/z80_test.c:120-133 | the text printed is the 4096 lines of the dump |
| HexDump.DumpLine | host_software/z80_test.c:123-131 | one line is the address in four hex digits, `: `, and 16 bytes in two hex digits each, separated by a space and an extra space after every fourth |
| HexDump.PutByte | host_software/z80_test.c:125-129 | the line grows by the byte in two lower-case hex digits and the separator its column calls for |
| HexDump.LineLayout | host_software/z80_test.c:123-131 | each line is 57 characters: the address, `: `, and a final newline |
| HexDump.LineAt | host_software/z80_test.c:124-129 | byte `j` of a line is printed at column `6 + 3j + j/4` |
| HexDump.Hex4RoundTrip | host_software/z80_test.c:123 | the four-digit address reads back as the address |
| HexDump.Hex2RoundTrip | host_software/z80_test.c:125 | the two printed digits read back as the byte |
| HexDump.DumpRoundTrip | host_software/z80_test.c:120-133 | reading the dump back gives every byte of memory, and each line's label is its address |
| Cpu65c02.GetStatus | host_software/65c02_test.c:80-83 | the status is taken from one sample of port E |
| Cpu65c02.StatusPins | host_software/65c02_test.c:69-83 | the write, memory-lock and vector-pull flags are set exactly when their active-low pins are low, and sync is passed through |
| Cpu65c02.EmulateCyc | host_software/65c02_test.c:131-149 | one bus cycle changes the log, mask, outputs and memory as the cycle function; port A is untouched |
| Cpu65c02.ReadCycle | host_software/65c02_test.c:134-137 | a read always drives port B with `mem[addr]` and leaves memory unchanged |
| Cpu65c02.WriteCycle | host_software/65c02_test.c:138-146 | a write releases port B and stores the sampled byte at the address, touching no other cell |
| Cpu65c02.WriteThenRead | host_software/65c02_test.c:131-149 | a write followed by a read of the same address drives back the value written |
| Cpu65c02.SetResetVector | host_software/65c02_test.c:157-158 | exactly the two reset-vector bytes are set |
| Cpu65c02.ResetVectorIsLoadBase | host_software/65c02_test.c:154-158 | the reset vector points at `0x800`, where the program is loaded |
| Cpu65c02.ClockStep | host_software/65c02_test.c:163-164 | iteration `i` raises the clock when `i` is odd and lowers it otherwise, touching nothing else in port A |
| Cpu65c02.Iteration | host_software/65c02_test.c:162-168 | pass `i` leaves the log, mask, outputs and memory as the pass function on its samples: the clock step, the bus cycle, then the address and status samples |
| Cpu65c02.CycleKeepsPorts | host_software/65c02_test.c:131-149 | a bus cycle leaves port A and ports C onwards as they were and changes only the data-bus direction bit of the mask |
| Cpu65c02.PassClock | host_software/65c02_test.c:163-166 | pass `i` runs its cycle with the clock high exactly when `i` is odd, and changes no other bit of port A |
| Cpu65c02.PassPorts | host_software/65c02_test.c:162-168 | a pass changes only the data-bus direction bit of the mask and leaves ports C onwards as they were |
| Cpu65c02.PassMemory | host_software/65c02_test.c:166 | a pass changes at most the memory cell at the cycle's address, and none on a read |
| Cpu65c02.Run | host_software/65c02_test.c:162-168 | `n` passes leave the log, mask, outputs and memory as the passes applied in order, each to its own samples; the clock written by iteration `i` is high exactly for odd `i` |
| Cpu65c02.RunMask | host_software/65c02_test.c:162-168 | over any number of passes only the data-bus direction bit of the mask changes |
| Cpu65c02.RunOutputs | host_software/65c02_test.c:162-168 | over the loop only the clock bit of port A and port B change among the outputs, and the clock is as the last pass's step set it |
| Cpu65c02.RunClocks | host_software/65c02_test.c:163-164 | after pass `k` the clock is high exactly when `k` is odd, the other bits of port A as at the start |
| Cpu65c02.Clocks | host_software/65c02_test.c:163-164 | the port-A value after each pass alternates the clock, starting low, and the last one is the final port A |
| Cpu65c02.RunMemory | host_software/65c02_test.c:162-168 | a memory cell that no write cycle addresses keeps its value over the loop |
| Memories.Init | host_software/mem_test.c:23-29 | port A becomes 7 (all strobes released) and the mask `0x3d` (port B input) |
| Memories.SetAddr | host_software/mem_test.c:34-36 | ports C, D and E carry the address bytes low to high |
| Memories.WithAddrSpells | host_software/mem_test.c:34-36 | the chip sees the low 24 bits of the address |
| Memories.SramWrite | host_software/mem_test.c:31-42 | the log is the write strobe with the data driven, then the idle state |
| Memories.SramWriteStores | host_software/mem_test.c:31-42 | a chip modelled as a byte map ends with `m[addr mod 2^24 := data]` |
| Memories.Read | host_software/mem_test.c:44-59 | the byte returned is port B of the sample taken with the chip enabled for output |
| Memories.ReadSeesCell | host_software/mem_test.c:44-59 | a read changes no cell, and its sample is taken while the chip outputs the addressed cell |
| Memories.WriteThenRead | host_software/mem_test.c:31-59 | a read after a write to the same address returns the data written |
| Memories.EndsAtRest | host_software/mem_test.c:41 | every routine ends with strobes released, port B an input, and the address still on the bus |
| Memories.EepromWrite | host_software/28c256_test.c:32-51 | the log is select, write strobe, select, then idle |
| Memories.EepromWriteSequence | host_software/28c256_test.c:32-51 | port A goes 6, 2, 6, 7 with the data driven until the final idle |
| Memories.EepromWriteStores | host_software/28c256_test.c:32-51 | the EEPROM modelled as a byte map ends with `m[addr mod 2^24 := data]` |
| Memories.EepromWriteThenRead | host_software/28c256_test.c:32-68 | a read after an EEPROM write to the same address returns the data written |
| Netlist.ReadChdlModule | netlist/netlist_map.cpp:14-20 | the loop returns the corrected module name of the stream |
| Netlist.ChdlModuleBetween | netlist/netlist_map.cpp:14-20 | the name is the text between the first `<` and the next `>`; with no `<` it is empty |
| Netlist.ChdlModuleUnterminated | netlist/netlist_map.cpp:17 | as written, `<ab` at end of input yields `ab` followed by `(char)EOF`; corrected it yields `ab` |
| Netlist.IndexOf | netlist/netlist_map.cpp:16 | the skip loop stops at the first `<`, or at the end when there is none |
| Netlist.ClassifyDigits | netlist/netlist_map.cpp:36-38 | a word of digits is read as its decimal value, which saturates at 2^31−1 when it does not fit an `int` |
| Netlist.ClassifyNoDigit | netlist/netlist_map.cpp:36-38 | a word that is not a rail, `nc` or a number fails to parse |
| Netlist.PinMap.constructor | netlist/netlist_map.cpp:11-12 | the three maps start empty |
| Netlist.PinMap.Word | netlist/netlist_map.cpp:32-41 | one word updates the maps exactly as the word rule says, or reports the failure and changes nothing |
| Netlist.PinMap.Line | netlist/netlist_map.cpp:27-43 | one line's words are numbered from 1 and applied in order until one fails |
| Netlist.LineOk | netlist/netlist_map.cpp:28-43 | a line is processed without failure exactly when every word is a rail, `nc` or a number of at least 1 |
| Netlist.LineVdd | netlist/netlist_map.cpp:32 | the module's `vdd` set gains exactly the positions of the `vdd` words |
| Netlist.LineGnd | netlist/netlist_map.cpp:33 | the module's `gnd` set gains exactly the positions of the `gnd` words |
| Netlist.LinePins | netlist/netlist_map.cpp:36-40 | the pin vector is grown to the largest pin number, and entry `n-1` holds the last position whose word is `n` |
| Netlist.ExpectedSnoc | netlist/netlist_map.cpp:39-40 | a number word grows the vector with zeros when needed, then stores its position at `n-1` |
| Netlist.LineGrows | netlist/netlist_map.cpp:28-43 | no line removes a module or shrinks a pin vector |
| Netlist.PinMap.ReadPmap | netlist/netlist_map.cpp:25-44 | the whole file is processed line by line with its module name, stopping at the first failure |
| Netlist.PmapGrows | netlist/netlist_map.cpp:25-44 | the maps only grow over the file |
| Netlist.PmapStops | netlist/netlist_map.cpp:25-44 | after a failing line the rest of the file has no effect |

## Left out

- Floating point. Coordinates, diameters and text scales are integer
  micro-inches. Font points are integer font units, which a glyph
  multiplies by the scale. `num` is exact in this model, and the `%g` diameter of
  an aperture declaration is printed as its shortest exact decimal. The
  6-significant-digit rounding and exponent form of `%g` are not
  modelled.
- Drawables.Registry.AddTrackDefault: the clearance is `thickness * 1.25`
  in the source; here it is `thickness * 5 / 4` with integer truncation.
- Drawables.Registry.AddViaDefault: the clearance is `outer * 1.25` in
  the source; here it is `outer * 5 / 4` with integer truncation.
- Drawables.DrawChar: the pen advance `width*scale + scale*1.3` is
  computed in integers. It requires the glyph to have an even number of
  points, because the source then reads past the end of the vector. The
  aperture `scale/5.0` is integer division.
- Drawables.TrackDraw: requires a track that is drawn to have at least
  one point, because `points[0]` of an empty track is undefined
  behaviour in the source.
- Drawables.DrawOne: a via is drawn by the corrected rule `ViaF`, not
  the code as written (see Findings). On the plated-through-hole layer
  (6) the model draws nothing at priority −50 and flashes the drill
  diameter `inner` dark at priority 0. The code flashes the clearance
  clear at −50 and the outer pad dark at 0. `ViaAsWrittenF` keeps the
  written behaviour and `ViaAsWrittenIgnoresInner` states it. On copper
  layers 2..5 the two rules agree (`ViaLayers`).
- Drawables.Pass: draws each via by the corrected rule, through
  `DrawOne` (previous line).
- Drawables.Registry.DrawLayer: draws each via by the corrected rule,
  through `DrawOne` (see the `Drawables.DrawOne` line).
- Drawables.Registry.DrawLayer: the order in which drawables are visited
  is a parameter (an enumeration of the live handles). `std::set`
  orders by pointer value, which the model cannot see.
- `err`'s messages on `cerr`, and the partial line the stream holds when
  `abort()` ends the process. An aborting draw or flash is modelled as
  an `Abort` result with the state unchanged.
- `font::load`, `load_hex`, every `main` except the two CPU loops, the
  random write/read loops of the memory tests, `print_bus_status` and
  `print_data_bus` output, and `printf`/`putc` except the plotted line
  and the hex dump. These are file and console I/O.
- `open_parport`, `close_parport`, `close_busyboard`, the `ioctl` calls
  and `usleep`. The parallel port is the event trace, and each status
  read is answered by a byte oracle.
- Spi: the chip-select number must satisfy `id + 2 < 31`, so that
  `1 << (id + 2)` is defined.
- SpiAdc.Plot: requires `x * 79` to fit in a 32-bit `int`.
- Lcd.SetPos: requires `row * 40 + col` to fit in a 32-bit `int`.
- Memories: the address must be below 2^32, the range of the source's
  `unsigned` parameter.
- The MISO and port-B samples of the SPI, ADC and memory routines are
  ghost results. They are not real return values, because a program
  cannot observe the oracle.
- The output loop of `read_pmap` (netlist/netlist_map.cpp:46-51), and
  the `ifstream` word splitting: a file is given as lines of a head text
  and its words.
- Netlist: a word that does not parse as a number makes the line fail
  (`TokenF` gives no result). In the source, C++11 `>>` then stores 0,
  and `pinmap[dev][-1]` is written out of bounds. A negative number also
  fails, because the unsigned size comparison makes `resize` fail.
- `netlist_gen.cpp`, `read_netlist`, and the POV, PWM and scope
  programs. netlist_gen.cpp is not part of this model.
- Text is drawn at priority −100, because that is what the `text`
  constructor registers (board/board.cpp:121). The repository's own
  description of the program says 100.

## Findings

| source | as written | input that shows it | evidently intended | confidence | as-written member | corrected member |
|---|---|---|---|---|---|---|
| board/board.cpp:332 | `l <= LAYER_CU0 + N_CU` also accepts layer 6, the plated-through-hole layer, so the branch at 342-347 is dead. On that layer a via flashes its clearance and its outer pad, and the drill diameter `inner` is never used | any via drawn on layer 6 at priority 0 | `l < LAYER_CU0 + N_CU`: the pad on copper layers 2..5 and the drill flashed with `inner` on the plated-through-hole layer | high; not executed | Drawables.ViaAsWrittenIgnoresInner | Drawables.ViaLayers |
| host_software/spi_test.c:101-106 | `char buf[4]` but the code stores `buf[4] = data` and sends 5 bytes | any call, e.g. address 0 and data `0x55`: the fifth store is out of bounds | a five-byte buffer holding command, address and data | high; not executed | Spi.SramWriteOverrun | Spi.SramWriteFrameStores |
| netlist/netlist_map.cpp:17 | the stream is tested before `get()`, so at end of input the failed `get()` returns EOF, which is not `>`, and `(char)EOF` is appended to the name | a file ending in `<ab` with no closing `>` | the name `ab` | medium; not executed | Netlist.ChdlModuleUnterminated | Netlist.ChdlModuleBetween |
