/**
 * The beam counters of the video display processor: the counter half of
 * `VDP::clock` (src/video/vdp.cpp) as a function of the counters before.
 *
 * Each clock first wraps a finished line (column 342 becomes 0 of the next
 * line, and the last line of the frame becomes line 0 with the frame
 * flagged complete), then sets vblank at column 303 and requests the frame
 * interrupt at column 304 of the first line below the active area, then runs
 * the raster (line interrupt) counter, and finally steps the column and the
 * cycle count.
 */
module VdpTiming {
  import opened VdpRegs

  /** `uint8_t` and `uint32_t` values. */
  type Byte = x: int | 0 <= x < 0x100
  type Word32 = x: int | 0 <= x < 0x1_0000_0000

  /**
   * The counters one clock updates: column, line, the 8-bit raster counter,
   * the 32-bit frame and cycle counts, and the frame-complete flag.
   */
  datatype Beam = Beam(h: int, v: int, raster: Byte, frames: Word32, cycles: Word32, complete: bool)

  /** What the counters depend on: the active height, the lines per frame, reg10 and the two enables. */
  datatype Screen = Screen(active: int, lines: int, reg10: Byte, ie0: bool, ie1: bool)

  /** `uint8_t` decrement: 0 wraps to 0xff. */
  function Dec8(x: Byte): Byte
  {
    if x == 0 then 0xff else x - 1
  }

  /** `uint32_t` increment: 0xffffffff wraps to 0. */
  function Inc32(x: Word32): Word32
  {
    if x == 0xffff_ffff then 0 else x + 1
  }

  /** The step from column 342 to column 0 of the next line, and from the last line to line 0. */
  function Wrap(b: Beam, lines: int): (w: Beam)
    ensures b.h != ScanlineLength ==> w == b
    ensures b.h == ScanlineLength ==> w.h == 0 && w.raster == b.raster && w.cycles == b.cycles
    ensures b.h == ScanlineLength && b.v + 1 != lines ==> w.v == b.v + 1 && w.complete == b.complete && w.frames == b.frames
    ensures b.h == ScanlineLength && b.v + 1 == lines ==> w.v == 0 && w.complete && w.frames == Inc32(b.frames)
  {
    if b.h == ScanlineLength then
      if b.v + 1 == lines then b.(h := 0, v := 0, complete := true, frames := Inc32(b.frames))
      else b.(h := 0, v := b.v + 1)
    else b
  }

  /**
   * `checkRasterCounter`: down to and including the first line below the
   * active area the counter drops by one at column 0, and while it reads
   * 0xff it fires, reloading from reg10 at column 341; further down it is
   * held at reg10 and never fires. The result is the new counter and
   * whether it fired.
   */
  function RasterStep(h: int, v: int, raster: Byte, g: Screen): (Byte, bool)
  {
    if v <= g.active then
      var r := if h == 0 then Dec8(raster) else raster;
      if r == 0xff then (if h == ScanlineLength - 1 then g.reg10 else r, true)
      else (r, false)
    else (g.reg10, false)
  }

  /** What one clock signals: vblank raised, and an interrupt asked of the CPU. */
  datatype Signals = Signals(vblank: bool, irq: bool)

  /**
   * One clock of the counters after the wrap: vblank at column 303 of the
   * first line below the active area, the frame interrupt at column 304
   * there, the raster counter and the line interrupt at column 304, and
   * the column and cycle steps.
   */
  function Tick(b: Beam, g: Screen): (Beam, Signals)
  {
    var w := Wrap(b, g.lines);
    var raster := RasterStep(w.h, w.v, w.raster, g);
    var frameIrq := w.v == g.active && w.h == 304 && g.ie0;
    var lineIrq := raster.1 && w.h == 304 && g.ie1;
    (Beam(w.h + 1, w.v, raster.0, w.frames, Inc32(w.cycles), w.complete),
     Signals(w.v == g.active && w.h == 303, frameIrq || lineIrq))
  }

  /** n clocks of the counters. */
  function Ticks(b: Beam, g: Screen, n: nat): Beam
    decreases n
  {
    if n == 0 then b else Ticks(Tick(b, g).0, g, n - 1)
  }

  /** The range a `Beam` stays in: the column 0 to 342 and the line below the line count. */
  predicate InFrame(b: Beam, lines: int)
  {
    0 <= b.h <= ScanlineLength && 0 <= b.v < lines
  }

  /**
   * The counters stay inside a frame, and after any clock the column is at
   * least 1: the counter reads 0 only inside the clock that wraps a line.
   */
  lemma TickRange(b: Beam, g: Screen)
    requires InFrame(b, g.lines)
    ensures InFrame(Tick(b, g).0, g.lines) && Tick(b, g).0.h >= 1
  {
  }

  /**
   * Interrupts are only requested at column 304: the frame interrupt on the
   * first line below the active area when ie0 is set, the line interrupt
   * while the raster counter reads 0xff when ie1 is set.
   */
  lemma IrqPoints(b: Beam, g: Screen)
    ensures var w := Wrap(b, g.lines);
            Tick(b, g).1.irq <==>
              w.h == 304 &&
              ((w.v == g.active && g.ie0) || (RasterStep(w.h, w.v, w.raster, g).1 && g.ie1))
  {
  }

  /** Vblank is raised exactly at column 303 of the first line below the active area. */
  lemma VblankPoint(b: Beam, g: Screen)
    ensures var w := Wrap(b, g.lines);
            Tick(b, g).1.vblank <==> w.v == g.active && w.h == 303
  {
  }

  /** Below the first line past the active area the raster counter holds reg10 and never fires. */
  lemma RasterHeld(b: Beam, g: Screen)
    requires Wrap(b, g.lines).v > g.active
    ensures Tick(b, g).0.raster == g.reg10
    ensures !RasterStep(Wrap(b, g.lines).h, Wrap(b, g.lines).v, Wrap(b, g.lines).raster, g).1
  {
  }

  lemma {:induction false} TicksAdd(b: Beam, g: Screen, m: nat, n: nat)
    ensures Ticks(b, g, m + n) == Ticks(Ticks(b, g, m), g, n)
    decreases m
  {
    if m > 0 {
      TicksAdd(Tick(b, g).0, g, m - 1, n);
    }
  }

  /**
   * Inside a line, from column 1 up to column 341, the clocks only move
   * the column: the line, the frame count and the completion flag stay,
   * and so does the raster counter on the lines it counts.
   */
  lemma {:induction false} WithinLine(b: Beam, g: Screen, k: nat)
    requires 1 <= b.h && b.h + k <= ScanlineLength - 1
    ensures var r := Ticks(b, g, k);
            r.h == b.h + k && r.v == b.v && r.frames == b.frames && r.complete == b.complete &&
            (b.v <= g.active ==> r.raster == b.raster)
    decreases k
  {
    if k > 0 {
      WithinLine(Tick(b, g).0, g, k - 1);
    }
  }

  /**
   * A line is 342 clocks: from column 1 of line v the counters come back to
   * column 1 of the next line, wrapping to line 0 and completing the frame
   * after the last line. On a counted line the raster counter drops by one,
   * having first been reloaded from reg10 if it had underflowed. (The
   * length is a parameter equal to `ScanlineLength` so that the 342 clocks
   * are not unfolded one by one.)
   */
  lemma LineRun(b: Beam, g: Screen, len: nat)
    requires len == ScanlineLength && b.h == 1 && 0 <= b.v < g.lines
    ensures var r := Ticks(b, g, len);
            && r.h == 1
            && r.v == (if b.v + 1 == g.lines then 0 else b.v + 1)
            && r.complete == (b.complete || b.v + 1 == g.lines)
            && r.frames == (if b.v + 1 == g.lines then Inc32(b.frames) else b.frames)
            && (b.v < g.active ==> r.raster == Dec8(if b.raster == 0xff then g.reg10 else b.raster))
  {
    var k := len - 2;
    WithinLine(b, g, k);
    TicksAdd(b, g, k, 2);
    assert k + 2 == len;
    var m := Ticks(b, g, k);
    LineEnd(m, g);
    assert Ticks(b, g, len) == Ticks(m, g, 2);
  }

  /** The last two clocks of a line: column 341, where an underflowed raster counter reloads, and the wrap. */
  lemma LineEnd(m: Beam, g: Screen)
    requires m.h == ScanlineLength - 1 && 0 <= m.v < g.lines
    ensures var r := Ticks(m, g, 2);
            && r.h == 1
            && r.v == (if m.v + 1 == g.lines then 0 else m.v + 1)
            && r.complete == (m.complete || m.v + 1 == g.lines)
            && r.frames == (if m.v + 1 == g.lines then Inc32(m.frames) else m.frames)
            && (m.v < g.active ==> r.raster == Dec8(if m.raster == 0xff then g.reg10 else m.raster))
  {
    assert Ticks(m, g, 2) == Tick(Tick(m, g).0, g).0;
    LastColumn(m, g);
    WrapColumn(Tick(m, g).0, g);
  }

  /** Column 341 moves to 342, reloading an underflowed raster counter on a counted line. */
  lemma LastColumn(m: Beam, g: Screen)
    requires m.h == ScanlineLength - 1
    ensures var r := Tick(m, g).0;
            && r.h == ScanlineLength && r.v == m.v && r.frames == m.frames && r.complete == m.complete
            && (m.v <= g.active ==> r.raster == (if m.raster == 0xff then g.reg10 else m.raster))
  {
  }

  /** Column 342 wraps to column 1 of the next line, counting the raster counter down on a counted line. */
  lemma WrapColumn(m: Beam, g: Screen)
    requires m.h == ScanlineLength && 0 <= m.v
    ensures Tick(m, g).0.h == 1
    ensures Tick(m, g).0.v == (if m.v + 1 == g.lines then 0 else m.v + 1)
    ensures Tick(m, g).0.complete == (m.complete || m.v + 1 == g.lines)
    ensures Tick(m, g).0.frames == (if m.v + 1 == g.lines then Inc32(m.frames) else m.frames)
    ensures m.v < g.active ==> Tick(m, g).0.raster == Dec8(m.raster)
  {
  }

  /** The first n lines of a frame, from column 1 of line 0, leave the frame incomplete and uncounted. */
  lemma {:induction false} LinesRun(b: Beam, g: Screen, len: nat, n: nat)
    requires len == ScanlineLength && b.h == 1 && b.v == 0 && !b.complete && n < g.lines
    ensures var r := Ticks(b, g, len * n);
            r.h == 1 && r.v == n && !r.complete && r.frames == b.frames
  {
    if n > 0 {
      LinesRun(b, g, len, n - 1);
      assert len * (n - 1) + len == len * n;
      TicksAdd(b, g, len * (n - 1), len);
      LineRun(Ticks(b, g, len * (n - 1)), g, len);
    }
  }

  /**
   * A frame is `lines * 342` clocks: from column 1 of line 0 the counters
   * come back there with the frame flagged complete and counted once.
   */
  lemma FrameRun(b: Beam, g: Screen, len: nat)
    requires len == ScanlineLength && b.h == 1 && b.v == 0 && !b.complete && 0 < g.lines
    ensures var r := Ticks(b, g, len * g.lines);
            r.h == 1 && r.v == 0 && r.complete && r.frames == Inc32(b.frames)
  {
    LinesRun(b, g, len, g.lines - 1);
    assert len * (g.lines - 1) + len == len * g.lines;
    TicksAdd(b, g, len * (g.lines - 1), len);
    LineRun(Ticks(b, g, len * (g.lines - 1)), g, len);
  }
  /**
   * Clocks left until the one that completes the frame: the rest of this
   * line (columns up to 342, then the wrap) and the 342 of each later line.
   */
  function Remaining(b: Beam, lines: int): int
  {
    (lines - 1 - b.v) * ScanlineLength + ScanlineLength + 1 - b.h
  }

  /**
   * The frame completes on the clock that wraps the last line, and only
   * there; that clock counts the frame and leaves the beam at column 1 of
   * line 0. Every other clock keeps the flag and the frame count and brings
   * the end of the frame one clock nearer.
   */
  lemma FrameEnd(b: Beam, g: Screen)
    requires InFrame(b, g.lines)
    ensures Remaining(b, g.lines) >= 1
    ensures var t := Tick(b, g).0;
            if b.h == ScanlineLength && b.v + 1 == g.lines
            then t.complete && t.h == 1 && t.v == 0 && t.frames == Inc32(b.frames)
            else t.complete == b.complete && t.frames == b.frames &&
                 Remaining(t, g.lines) == Remaining(b, g.lines) - 1
  {
  }
}
