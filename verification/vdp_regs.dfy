/**
 * Register layouts and the combinational helpers of the video display
 * processor (src/video/vdp.h, src/video/vdp.cpp).
 *
 * The two mode registers, the status register and a name-table entry are
 * bitfields; the helpers here read and write those fields, decode the mode
 * bits into a display height, map the internal counters to the bytes the
 * V and H counter ports return, and reverse the bits of a pattern byte for
 * a horizontally flipped tile.
 */
module VdpRegs {
  import opened Console

  /** `MAXSPRITEPERLINE`, the VRAM size and the CRAM size. */
  const MaxSpritePerLine := 8
  const VramSize := 0x4000
  const CramSize := 32

  /** Bit `n` of a byte, as 0 or 1. */
  function BitOf(b: bv8, n: nat): bv8
    requires n < 8
  {
    (b >> n) & 1
  }

  // ------------------------------------------------------------ reg0 (MODE 1)

  /** reg0: es 0, m2 1, m4 2, ss 3, ie1 4, lcb 5, hsi 6, vsi 7. */
  function M2(reg0: bv8): bv8 { BitOf(reg0, 1) }
  function M4(reg0: bv8): bv8 { BitOf(reg0, 2) }
  function Ss(reg0: bv8): bv8 { BitOf(reg0, 3) }
  function Ie1(reg0: bv8): bool { BitOf(reg0, 4) == 1 }
  function Lcb(reg0: bv8): bool { BitOf(reg0, 5) == 1 }
  function Hsi(reg0: bv8): bool { BitOf(reg0, 6) == 1 }
  function Vsi(reg0: bv8): bool { BitOf(reg0, 7) == 1 }

  // ------------------------------------------------------------ reg1 (MODE 2)

  /** reg1: sd 0, sz 1, m3 3, m1 4, ie0 5, blk 6. */
  function Sz(reg1: bv8): bv8 { BitOf(reg1, 1) }
  function M3(reg1: bv8): bv8 { BitOf(reg1, 3) }
  function M1(reg1: bv8): bv8 { BitOf(reg1, 4) }
  function Ie0(reg1: bv8): bool { BitOf(reg1, 5) == 1 }
  function Blk(reg1: bv8): bool { BitOf(reg1, 6) == 1 }

  // ------------------------------------------------------------ status

  /** status: sprcol 5, sprovf 6, vblank 7. */
  const VblankMask: bv8 := 0x80
  const SprOvfMask: bv8 := 0x40
  const SprColMask: bv8 := 0x20

  /** Reading the status clears vblank and sprovf and keeps every other bit. */
  function StatusAfterRead(status: bv8): (s: bv8)
    ensures s & VblankMask == 0 && s & SprOvfMask == 0
    ensures s & 0x3f == status & 0x3f
  {
    status & !VblankMask & !SprOvfMask
  }

  // ------------------------------------------------------------ name table

  /** `NameTableEntry`: lsb first; char_id bits 0-8, hflip 9, vflip 10, palette 11, priority 12. */
  function Entry(lsb: bv8, msb: bv8): bv16 { (msb as bv16 << 8) | lsb as bv16 }
  function CharId(w: bv16): bv16 { w & 0x1ff }
  function HFlip(w: bv16): bool { (w >> 9) & 1 == 1 }
  function VFlip(w: bv16): bool { (w >> 10) & 1 == 1 }
  function PaletteBit(w: bv16): bv8 { ((w >> 11) & 1) as bv8 }
  function Priority(w: bv16): bv8 { ((w >> 12) & 1) as bv8 }

  /** The flag bits all come from the high byte: the low byte only selects the tile. */
  lemma EntryFields(lsb: bv8, msb: bv8)
    ensures CharId(Entry(lsb, msb)) == ((msb as bv16 & 1) << 8) | lsb as bv16
    ensures HFlip(Entry(lsb, msb)) == (msb & 0x02 != 0)
    ensures VFlip(Entry(lsb, msb)) == (msb & 0x04 != 0)
    ensures PaletteBit(Entry(lsb, msb)) == (msb >> 3) & 1
    ensures Priority(Entry(lsb, msb)) == (msb >> 4) & 1
  {
  }

  // ------------------------------------------------------------ mode decode

  /** `mode = m4*8 + m3*4 + m2*2 + m1`. */
  function ModeNumber(reg0: bv8, reg1: bv8): (m: bv8)
    ensures m < 16
  {
    M4(reg0) * 8 + M3(reg1) * 4 + M2(reg0) * 2 + M1(reg1)
  }

  /** The display geometry a Mode 4 code selects. */
  datatype Geometry = Geometry(activePeriod: int, additionalScan: int, rowNumber: int)

  /**
   * `setVideoMode`: the Mode 4 codes select 192, 224 or 240 visible lines;
   * every other code leaves the geometry as it was.
   */
  function ModeGeometry(mode: bv8): Option<Geometry>
  {
    if mode == 0x08 || mode == 0x0a || mode == 0x0c || mode == 0x0f then Some(Geometry(192, 32, 28))
    else if mode == 0x0b then Some(Geometry(224, 32, 32))
    else if mode == 0x0e then Some(Geometry(240, 16, 32))
    else None
  }

  /** `video_mode` after `setVideoMode`: 2 for Graphic 2, 4 for Mode 4, otherwise unchanged. */
  function VideoMode(mode: bv8, current: bv8): bv8
  {
    if mode == 0x02 then 2
    else if ModeGeometry(mode).Some? then 4
    else current
  }

  /**
   * A geometry is only chosen with M4 set; it always has 192, 224 or 240
   * lines, 224 needs M1 and M2 without M3, and 240 needs M2 and M3 without M1.
   */
  lemma GeometryLines(reg0: bv8, reg1: bv8)
    ensures var g := ModeGeometry(ModeNumber(reg0, reg1));
            g.Some? ==> (M4(reg0) == 1 &&
                         g.value.activePeriod in {192, 224, 240} &&
                         (g.value.activePeriod == 224 <==> M1(reg1) == 1 && M2(reg0) == 1 && M3(reg1) == 0) &&
                         (g.value.activePeriod == 240 <==> M1(reg1) == 0 && M2(reg0) == 1 && M3(reg1) == 1))
    ensures M4(reg0) == 0 ==> ModeGeometry(ModeNumber(reg0, reg1)).None?
  {
  }

  /** Every geometry fits the 256-line counter and a 32-row name table. */
  lemma GeometryBounds(mode: bv8)
    requires ModeGeometry(mode).Some?
    ensures var g := ModeGeometry(mode).value;
            g.activePeriod + g.additionalScan <= 256 && 0 < g.rowNumber <= 32
  {
  }

  // ------------------------------------------------------------ counters

  /** `SetVideoStandard`: PAL has 313 lines, NTSC 262; both have 342 clocks per line. */
  function ScanlineNumber(std: bv8): int
  {
    if std == 0 then 313 else 262
  }

  const ScanlineLength := 342

  /** `getVCountByte`: the line counter folded into a byte, jumping back once per frame. */
  function VCountByte(vCount: int, scanlineNumber: int, std: bv8, activePeriod: int): (b: int)
    requires 256 <= scanlineNumber < 512 && 0 <= vCount < 0x1_0000
    ensures 0 <= b < 256
  {
    var delta := scanlineNumber - 256;
    var threshold :=
      if std == 0 && activePeriod == 192 then 0xf2
      else if std == 0 && activePeriod == 224 then 0x102
      else if std == 0 && activePeriod == 240 then 0x10a
      else if std == 1 && activePeriod == 192 then 0xda
      else if std == 1 && activePeriod == 224 then 0xea
      else -1;
    if threshold < 0 then 0
    else if vCount > threshold then (vCount - delta) % 256
    else vCount % 256
  }

  /** The standards and heights `getVCountByte` has a table row for. */
  predicate HasVCountTable(std: bv8, activePeriod: int)
  {
    (std == 0 && activePeriod in {192, 224, 240}) || (std == 1 && activePeriod in {192, 224})
  }

  /**
   * In every configuration with a table row the byte counts 0, 1, ... up to
   * the threshold, jumps back, and reads 0xff on the last line of the
   * frame, so it wraps to 0 with the counter.
   */
  lemma VCountFrame(std: bv8, activePeriod: int)
    requires std <= 1 && HasVCountTable(std, activePeriod)
    ensures var n := ScanlineNumber(std);
            VCountByte(0, n, std, activePeriod) == 0 &&
            VCountByte(n - 1, n, std, activePeriod) == 0xff &&
            VCountByte(activePeriod, n, std, activePeriod) == activePeriod % 256
  {
  }

  /** Configurations without a row (NTSC with 240 lines, an unknown standard) read 0. */
  lemma VCountNoTable(vCount: int, std: bv8, activePeriod: int)
    requires !HasVCountTable(std, activePeriod) && 0 <= vCount < 0x1_0000
    ensures VCountByte(vCount, 313, std, activePeriod) == 0 && VCountByte(vCount, 262, std, activePeriod) == 0
  {
  }

  /** `getHCountByte`: bits 1-8 of the column counter. */
  function HCountByte(hCount: int): (b: int)
    requires 0 <= hCount < 0x1_0000
    ensures 0 <= b < 256
  {
    (hCount % 0x200) / 2
  }

  /** Within a line the H counter byte is half the column, 0 to 171. */
  lemma HCountHalves(hCount: int)
    requires 0 <= hCount <= ScanlineLength
    ensures HCountByte(hCount) == hCount / 2 && HCountByte(hCount) <= 171
  {
  }

  // ------------------------------------------------------------ bit reversal

  /** `_bitswap_uint8`: the multiply-mask-modulo trick on a 64-bit word. */
  function BitSwap(x: bv8): bv8
  {
    (((x as bv64 * 0x0202020202) & 0x010884422010) % 1023) as bv8
  }

  /** Bit reversal spelled out bit by bit. */
  function Reverse(x: bv8): bv8
  {
    ((x & 0x01) << 7) | ((x & 0x02) << 5) | ((x & 0x04) << 3) | ((x & 0x08) << 1) |
    ((x & 0x10) >> 1) | ((x & 0x20) >> 3) | ((x & 0x40) >> 5) | ((x & 0x80) >> 7)
  }

  /** The trick reverses the bits, so it is its own inverse. */
  lemma BitSwapReverses(x: bv8)
    ensures BitSwap(x) == Reverse(x)
    ensures BitSwap(BitSwap(x)) == x
  {
  }

  /** Bit 7 - k of the swapped byte is bit k of the original: a flipped tile's pixels come out mirrored. */
  lemma BitSwapMirrors(x: bv8, k: nat)
    requires k < 8
    ensures BitOf(BitSwap(x), 7 - k) == BitOf(x, k)
  {
    BitSwapReverses(x);
    if k == 0 {
    } else if k == 1 {
    } else if k == 2 {
    } else if k == 3 {
    } else if k == 4 {
    } else if k == 5 {
    } else if k == 6 {
    } else {
    }
  }

  // ------------------------------------------------------------ sprites

  /**
   * `spriteOnScanline`: the sprite whose stored Y plus one is `y` covers the
   * current line. A `y` at or below the active height counts from above
   * the screen (y - 256); sprites are 8 lines high, 16 with `sz`.
   */
  predicate OnScanline(y: bv8, vCount: int, activePeriod: int, sz: bv8)
  {
    var upper := if y as int >= activePeriod then y as int - 256 else y as int;
    upper <= vCount <= upper + 7 + 8 * sz as int
  }

  /** The sprite-pattern line a covering sprite shows: 0..7, or 0..15 for tall sprites. */
  function SpriteLine(y: bv8, vCount: int, activePeriod: int): int
  {
    var upper := if y as int >= activePeriod then y as int - 256 else y as int;
    vCount - upper
  }

  lemma SpriteLineInRange(y: bv8, vCount: int, activePeriod: int, sz: bv8)
    requires OnScanline(y, vCount, activePeriod, sz)
    ensures 0 <= SpriteLine(y, vCount, activePeriod) <= 7 + 8 * sz as int
  {
  }
}
