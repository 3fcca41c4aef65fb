/**
 * What the scanline renderer of the video display processor draws
 * (src/video/vdp.cpp, `RenderBackground`, `RenderSprites`, `MaskColumnOne`
 * and the backdrop pixel of `clock`), as functions of the VDP state.
 *
 * A tile row is four bitplane bytes; pixel k shows bit 7 - k of each plane.
 * Colour 0 is transparent, any other colour is stored as the CRAM entry of
 * the tile's palette. The framebuffer is 256 cells wide; the background
 * wraps its x coordinate within the line (an 8-bit `x`), while sprites are
 * placed at `sprX + k - 8 * ss` unwrapped, so a sprite at the edge spills
 * into the neighbouring line's cells. Reads past the end of VRAM give 0 and
 * writes outside the framebuffer are dropped; the code leaves both
 * undefined.
 */
module VdpRender {
  import opened VdpRegs
  import Bitplanes

  /** The VDP state the renderer reads. */
  datatype Scene = Scene(
    vram: seq<bv8>, cram: seq<bv8>, regs: seq<bv8>,
    nameTab: int, sat: int, rows: int, active: int, h: int, v: int)

  predicate SceneOk(s: Scene)
  {
    |s.vram| == VramSize && |s.cram| == CramSize && |s.regs| == 11 &&
    0 <= s.nameTab && 0 <= s.sat && 0 < s.rows && 0 <= s.h && 0 <= s.v
  }

  /** A VRAM byte; addresses past the end read 0. */
  function VramAt(vram: seq<bv8>, a: int): bv8
  {
    if 0 <= a < |vram| then vram[a] else 0
  }

  /** A write into the framebuffer; a cell outside it is left alone. */
  function Plot(buf: seq<bv8>, cell: int, c: bv8): (r: seq<bv8>)
    ensures |r| == |buf|
  {
    if 0 <= cell < |buf| then buf[cell := c] else buf
  }

  /**
   * One tile row ready to draw: the shifter contents (four planes and the
   * clear slot past them), the palette, the x of pixel 0, whether x wraps
   * at 256, and the background priority bit.
   */
  datatype Tile = Tile(planes: seq<bv8>, palette: int, x0: int, wrap: bool, priority: bv8)

  predicate TileOk(t: Tile)
  {
    |t.planes| == 5 && t.planes[4] == 0 && 0 <= t.palette <= 1
  }

  /** The colour of pixel k: what the k-th `GetPixelColor` after loading returns. */
  function PixelColor(planes: seq<bv8>, k: nat): (c: bv8)
    requires |planes| == 5 && planes[4] == 0 && k < 8
    ensures c < 16
  {
    Bitplanes.FourPlaneColor(Bitplanes.ShiftN(planes, k));
    Bitplanes.Color(Bitplanes.ShiftN(planes, k))
  }

  /** The framebuffer cell of pixel k of a tile drawn on line y. */
  function CellAt(t: Tile, y: int, k: int): int
  {
    (if t.wrap then (t.x0 + k) % 256 else t.x0 + k) + y * 256
  }

  /** Pixels 0 .. k - 1 of a tile row drawn over `buf`; transparent pixels leave their cell. */
  function PaintRow(buf: seq<bv8>, cram: seq<bv8>, t: Tile, y: int, k: nat): (r: seq<bv8>)
    requires TileOk(t) && |cram| == CramSize && k <= 8
    ensures |r| == |buf|
  {
    if k == 0 then buf
    else
      var b := PaintRow(buf, cram, t, y, k - 1);
      var c := PixelColor(t.planes, k - 1);
      if c == 0 then b else Plot(b, CellAt(t, y, k - 1), cram[t.palette * 16 + c as int])
  }

  // ------------------------------------------------------------ background

  /** The name-table row and column of background column `col`, after scrolling. */
  function NameRow(s: Scene, col: int): int
    requires SceneOk(s)
  {
    var currentRow := s.v / 8;
    if Vsi(s.regs[0]) && col >= 25 then currentRow % 256
    else (s.v + s.regs[9] as int) / 8 % s.rows
  }

  function NameCol(s: Scene, col: int): int
    requires SceneOk(s) && 0 <= col
  {
    var hscrollCol := 0x20 - (s.regs[8] >> 3) as int;
    if Hsi(s.regs[0]) && s.v / 8 < 2 then col else (col + hscrollCol) % 32
  }

  /** The name-table entry of background column `col`. */
  function NameEntry(s: Scene, col: int): bv16
    requires SceneOk(s) && 0 <= col
  {
    var offset := s.nameTab + NameCol(s, col) * 2 + NameRow(s, col) * 64;
    Entry(VramAt(s.vram, offset), VramAt(s.vram, offset + 1))
  }

  /**
   * The pattern line of a background tile: scrolled by the fine vertical
   * scroll, except with `vsi` while the column counter is 25 or more, which
   * it always is at column 255, where the renderer runs.
   */
  function TileLine(s: Scene, entry: bv16): int
    requires SceneOk(s)
  {
    var line := if Vsi(s.regs[0]) && s.h / 8 >= 25 then s.v % 8 else (s.v + (s.regs[9] & 0x07) as int) % 8;
    if VFlip(entry) then 7 - line else line
  }

  /** Bitplane i of a background tile row, bit-reversed for a horizontally flipped tile. */
  function BgPlane(s: Scene, entry: bv16, i: int): bv8
    requires SceneOk(s)
  {
    var b := VramAt(s.vram, CharId(entry) as int * 32 + TileLine(s, entry) * 4 + i);
    if HFlip(entry) then BitSwap(b) else b
  }

  /** Background column `col` on the current line. */
  function BgTile(s: Scene, col: int): (t: Tile)
    requires SceneOk(s) && 0 <= col
    ensures TileOk(t)
  {
    var entry := NameEntry(s, col);
    var fine := if Hsi(s.regs[0]) && s.v / 8 < 2 then 0 else (s.regs[8] & 0x07) as int;
    Tile([BgPlane(s, entry, 0), BgPlane(s, entry, 1), BgPlane(s, entry, 2), BgPlane(s, entry, 3), 0],
         PaletteBit(entry) as int, col * 8 + fine, true, Priority(entry))
  }

  /** The shifter after a tile: shifted out when it was drawn, as loaded otherwise. */
  function AfterTile(t: Tile, drawn: bool): seq<bv8>
    requires TileOk(t)
  {
    if drawn then Bitplanes.ShiftN(t.planes, 8) else t.planes
  }

  /** Background columns 0 .. col - 1 of the given priority drawn over `buf`. */
  function BgPass(buf: seq<bv8>, s: Scene, priority: bv8, col: nat): (r: seq<bv8>)
    requires SceneOk(s) && col <= 32
    ensures |r| == |buf|
  {
    if col == 0 then buf
    else
      var b := BgPass(buf, s, priority, col - 1);
      var t := BgTile(s, col - 1);
      if t.priority == priority then PaintRow(b, s.cram, t, s.v % 256, 8) else b
  }

  // ------------------------------------------------------------ sprites

  /** The stored Y of sprite i plus one, as the 8-bit `vpos` of the scan. */
  function SpriteY(s: Scene, i: int): bv8
    requires SceneOk(s)
  {
    VramAt(s.vram, s.sat + i) + 1
  }

  /** The Y byte that ends the table in 192-line mode. */
  predicate Terminator(s: Scene, i: int)
    requires SceneOk(s)
  {
    s.active == 192 && VramAt(s.vram, s.sat + i) == 0xd0
  }

  predicate Covers(s: Scene, i: int)
    requires SceneOk(s)
  {
    OnScanline(SpriteY(s, i), s.v, s.active, Sz(s.regs[1]))
  }

  /**
   * The selection loop from sprite i on, with `sel` chosen so far: the
   * sprites chosen, and whether a sprite was found with the buffer full.
   */
  function Select(s: Scene, i: nat, sel: seq<int>): (r: (seq<int>, bool))
    requires SceneOk(s) && i <= 64 && |sel| <= MaxSpritePerLine
    ensures |r.0| <= MaxSpritePerLine
    decreases 64 - i
  {
    if i == 64 || Terminator(s, i) then (sel, false)
    else if Covers(s, i) then
      if |sel| < MaxSpritePerLine then Select(s, i + 1, sel + [i]) else (sel, true)
    else Select(s, i + 1, sel)
  }

  /** The first sprite index from i on that ends the table, or 64. */
  function Limit(s: Scene, i: nat): (n: nat)
    requires SceneOk(s) && i <= 64
    ensures i <= n <= 64
    ensures forall j :: i <= j < n ==> !Terminator(s, j)
    ensures n < 64 ==> Terminator(s, n)
    decreases 64 - i
  {
    if i == 64 || Terminator(s, i) then i else Limit(s, i + 1)
  }

  /** Every sprite in [i, n) covering the line, in table order. */
  function Covering(s: Scene, i: nat, n: nat): (c: seq<int>)
    requires SceneOk(s) && i <= n
    ensures forall k :: 0 <= k < |c| ==> i <= c[k] < n && Covers(s, c[k])
    decreases n - i
  {
    if i == n then [] else (if Covers(s, i) then [i] else []) + Covering(s, i + 1, n)
  }

  /** `Covering` misses no covering sprite of [i, n). */
  lemma {:induction false} CoveringComplete(s: Scene, i: nat, n: nat)
    requires SceneOk(s) && i <= n
    ensures forall k :: i <= k < n && Covers(s, k) ==> k in Covering(s, i, n)
    decreases n - i
  {
    if i < n {
      CoveringComplete(s, i + 1, n);
      var c := Covering(s, i, n);
      var rest := Covering(s, i + 1, n);
      assert c == (if Covers(s, i) then [i] else []) + rest;
      forall k | i <= k < n && Covers(s, k)
        ensures k in c
      {
        if k == i {
          assert c[0] == i;
        } else {
          assert k in rest;
        }
      }
    }
  }

  /** Strictly increasing, so also free of repeats. */
  predicate Increasing(c: seq<int>)
  {
    forall a, b :: 0 <= a < b < |c| ==> c[a] < c[b]
  }

  lemma IncreasingCons(x: int, rest: seq<int>)
    requires Increasing(rest) && forall k :: 0 <= k < |rest| ==> x < rest[k]
    ensures Increasing([x] + rest)
  {
    var c := [x] + rest;
    forall a, b | 0 <= a < b < |c|
      ensures c[a] < c[b]
    {
      assert c[b] == rest[b - 1];
      if a > 0 {
        assert c[a] == rest[a - 1];
      }
    }
  }

  /** `Covering` lists the sprites in increasing order. */
  lemma {:induction false} CoveringSorted(s: Scene, i: nat, n: nat)
    requires SceneOk(s) && i <= n
    ensures Increasing(Covering(s, i, n))
    decreases n - i
  {
    if i < n {
      CoveringSorted(s, i + 1, n);
      var rest := Covering(s, i + 1, n);
      if Covers(s, i) {
        IncreasingCons(i, rest);
        assert Covering(s, i, n) == [i] + rest;
      } else {
        assert Covering(s, i, n) == [] + rest;
        assert [] + rest == rest;
      }
    }
  }

  /** Appending the sprites `c` to `sel` up to the eight the buffer holds, and whether any were left over. */
  function Fill(sel: seq<int>, c: seq<int>): (seq<int>, bool)
    requires |sel| <= MaxSpritePerLine
  {
    if |sel| + |c| <= MaxSpritePerLine then (sel + c, false)
    else (sel + c[..MaxSpritePerLine - |sel|], true)
  }

  /** Choosing one sprite and then filling with the rest fills with both. */
  lemma FillCons(sel: seq<int>, i: int, rest: seq<int>)
    requires |sel| < MaxSpritePerLine
    ensures Fill(sel + [i], rest) == Fill(sel, [i] + rest)
  {
    var room := MaxSpritePerLine - |sel|;
    if |sel| + 1 + |rest| > MaxSpritePerLine {
      assert ([i] + rest)[..room] == [i] + rest[..room - 1];
      assert sel + [i] + rest[..room - 1] == sel + ([i] + rest[..room - 1]);
    } else {
      assert sel + [i] + rest == sel + ([i] + rest);
    }
  }

  /** With the buffer full, one more sprite is an overflow. */
  lemma FillFull(sel: seq<int>, c: seq<int>)
    requires |sel| == MaxSpritePerLine && c != []
    ensures Fill(sel, c) == (sel, true)
  {
    assert c[..0] == [] && sel + [] == sel;
  }

  /**
   * The scan from sprite i on, with `sel` already chosen, appends the
   * covering sprites before the table's end while there is room, and
   * reports an overflow exactly when one more is left over.
   */
  lemma {:induction false} SelectFrom(s: Scene, i: nat, sel: seq<int>)
    requires SceneOk(s) && i <= 64 && |sel| <= MaxSpritePerLine
    ensures Select(s, i, sel) == Fill(sel, Covering(s, i, Limit(s, i)))
    decreases 64 - i
  {
    if i == 64 || Terminator(s, i) {
      assert Covering(s, i, Limit(s, i)) == [] && sel + [] == sel;
    } else {
      var n := Limit(s, i);
      assert n == Limit(s, i + 1);
      var rest := Covering(s, i + 1, n);
      if Covers(s, i) {
        assert Covering(s, i, n) == [i] + rest;
        if |sel| < MaxSpritePerLine {
          SelectFrom(s, i + 1, sel + [i]);
          FillCons(sel, i, rest);
        } else {
          FillFull(sel, [i] + rest);
        }
      } else {
        assert Covering(s, i, n) == rest;
        SelectFrom(s, i + 1, sel);
      }
    }
  }

  /**
   * Sprite selection: the buffer holds the first eight sprites, in table
   * order, of those that cover the line and come before the 0xd0
   * terminator, and the overflow flag is set exactly when there are more
   * than eight of them.
   */
  lemma SelectFirstEight(s: Scene)
    requires SceneOk(s)
    ensures var c := Covering(s, 0, Limit(s, 0));
            && Select(s, 0, []).0 == (if |c| <= MaxSpritePerLine then c else c[..MaxSpritePerLine])
            && (Select(s, 0, []).1 <==> |c| > MaxSpritePerLine)
  {
    SelectFrom(s, 0, []);
    var c := Covering(s, 0, Limit(s, 0));
    assert [] + c == c;
  }

  /** The sprite row a selected sprite draws on the current line. */
  function SpriteTile(s: Scene, index: int): (t: Tile)
    requires SceneOk(s)
    ensures TileOk(t)
  {
    var y := SpriteY(s, index);
    var x := VramAt(s.vram, s.sat + 0x80 + index * 2);
    var id := VramAt(s.vram, s.sat + 0x80 + index * 2 + 1) as int + (if (s.regs[6] >> 2) & 0x01 == 1 then 256 else 0);
    var line := SpriteLine(y, s.v, s.active) % 256;
    var base := id * 32 + line * 4;
    Tile([VramAt(s.vram, base), VramAt(s.vram, base + 1), VramAt(s.vram, base + 2), VramAt(s.vram, base + 3), 0],
         1, x as int - 8 * Ss(s.regs[0]) as int, false, 0)
  }

  /** The first n selected sprites drawn over `buf`, in buffer order. */
  function SpritePass(buf: seq<bv8>, s: Scene, sel: seq<int>, n: nat): (r: seq<bv8>)
    requires SceneOk(s) && n <= |sel|
    ensures |r| == |buf|
  {
    if n == 0 then buf
    else PaintRow(SpritePass(buf, s, sel, n - 1), s.cram, SpriteTile(s, sel[n - 1]), s.v, 8)
  }

  // ------------------------------------------------------------ backdrop and mask

  /** The overscan colour: entry `reg7 & 0x0f` of the sprite palette. */
  function Backdrop(s: Scene): bv8
    requires SceneOk(s)
  {
    s.cram[16 + (s.regs[7] & 0x0f) as int]
  }

  /** Cells 0 .. k - 1 of line y painted with colour c. */
  function FillLeft(buf: seq<bv8>, y: int, c: bv8, k: nat): (r: seq<bv8>)
    ensures |r| == |buf|
  {
    if k == 0 then buf else Plot(FillLeft(buf, y, c, k - 1), k - 1 + y * 256, c)
  }

  /** `MaskColumnOne`: with `lcb`, the first eight pixels of the line take the backdrop. */
  function MaskPass(buf: seq<bv8>, s: Scene): (r: seq<bv8>)
    requires SceneOk(s)
    ensures |r| == |buf|
  {
    if Lcb(s.regs[0]) then FillLeft(buf, s.v, Backdrop(s), 8) else buf
  }

  /** The passes under the high-priority tiles: the priority-0 background, then the selected sprites. */
  function LowPart(buf: seq<bv8>, s: Scene, sel: seq<int>): (r: seq<bv8>)
    requires SceneOk(s)
    ensures |r| == |buf|
  {
    SpritePass(BgPass(buf, s, 0, 32), s, sel, |sel|)
  }

  /** The passes on top: the priority-1 background, then the left-column mask. */
  function HighPart(buf: seq<bv8>, s: Scene): (r: seq<bv8>)
    requires SceneOk(s)
    ensures |r| == |buf|
  {
    MaskPass(BgPass(buf, s, 1, 32), s)
  }

  /**
   * The compositing order of one `clock` on a visible cell: the backdrop
   * pixel, and at column 255 the low-priority background, the sprites,
   * the high-priority background and the left-column mask, in that order.
   */
  function Composite(buf: seq<bv8>, s: Scene, sel: seq<int>): (r: seq<bv8>)
    requires SceneOk(s)
    ensures |r| == |buf|
  {
    var b := Plot(buf, s.h + s.v * 256, Backdrop(s));
    if s.h == 0xff then HighPart(LowPart(b, s, sel), s) else b
  }
}
