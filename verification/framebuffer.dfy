/**
 * The frame buffer (src/video/framebuffer.cpp): a row-major array of
 * `width * height` pixels with no bounds checking. Pixels are kept as the
 * CRAM bytes the video chip looks up, not as RGBA words.
 */
module Frames {

  /** Row-major cell of (x, y): `x + y * width`. */
  function Cell(x: int, y: int, width: int): int { x + y * width }

  /** Inside the screen, distinct coordinates have distinct cells and every cell is in the buffer. */
  lemma CellsDistinct(x: int, y: int, x': int, y': int, width: int, height: int)
    requires 0 <= x < width && 0 <= y < height && 0 <= x' < width && 0 <= y' < height
    ensures 0 <= Cell(x, y, width) < width * height
    ensures Cell(x, y, width) == Cell(x', y', width) ==> x == x' && y == y'
  {
    assert Cell(x, y, width) < width * (y + 1) <= width * height;
    if y < y' {
      assert Cell(x, y, width) < width * (y + 1) <= width * y' <= Cell(x', y', width);
    } else if y' < y {
      assert Cell(x', y', width) < width * (y' + 1) <= width * y <= Cell(x, y, width);
    }
  }

  class FrameBuffer {
    var width: int
    var height: int
    var buffer: array<bv8>

    ghost predicate Valid()
      reads this
    {
      buffer.Length == width * height
    }

    /** `FrameBuffer()`: no pixels. */
    constructor Empty()
      ensures Valid() && width == 0 && height == 0 && buffer.Length == 0
    {
      width := 0;
      height := 0;
      buffer := new bv8[0];
    }

    /** `FrameBuffer(xRes, yRes)`: a fresh `xRes * yRes` buffer of unspecified pixels. */
    constructor (xRes: nat, yRes: nat)
      ensures Valid() && width == xRes && height == yRes && fresh(buffer)
    {
      width := xRes;
      height := yRes;
      buffer := new bv8[xRes * yRes];
    }

    /** `SetResolution`: records the new size and allocates exactly `xRes * yRes` cells. */
    method SetResolution(xRes: nat, yRes: nat) returns (ok: bool)
      modifies this
      ensures ok && Valid() && width == xRes && height == yRes && fresh(buffer)
    {
      width := xRes;
      height := yRes;
      buffer := new bv8[xRes * yRes];
      ok := true;
    }

    /** `SetPixel`: writes cell `x + y * width` and answers false; the cell must exist. */
    method SetPixel(x: int, y: int, c: bv8) returns (r: bool)
      requires 0 <= Cell(x, y, width) < buffer.Length
      modifies buffer
      ensures !r
      ensures buffer[..] == old(buffer[..])[Cell(x, y, width) := c]
    {
      buffer[Cell(x, y, width)] := c;
      r := false;
    }

    /** `GetPixel`: reads cell `x + y * width`. */
    function GetPixel(x: int, y: int): bv8
      requires 0 <= Cell(x, y, width) < buffer.Length
      reads this, buffer
    {
      buffer[Cell(x, y, width)]
    }
  }

  /** A pixel set and then read at the same coordinates gives back its colour; other pixels keep theirs. */
  lemma SetThenGet(f: FrameBuffer, x: int, y: int, c: bv8, before: seq<bv8>, x': int, y': int)
    requires 0 <= x < f.width && 0 <= x' < f.width && 0 <= y && 0 <= y'
    requires Cell(x, y, f.width) < f.buffer.Length && Cell(x', y', f.width) < f.buffer.Length
    requires |before| == f.buffer.Length && f.buffer[..] == before[Cell(x, y, f.width) := c]
    ensures f.GetPixel(x, y) == c
    ensures x' != x || y' != y ==> f.GetPixel(x', y') == before[Cell(x', y', f.width)]
  {
    CellsDistinct(x, y, x', y', f.width, if y < y' then y' + 1 else y + 1);
    assert f.buffer[Cell(x, y, f.width)] == f.buffer[..][Cell(x, y, f.width)];
    assert f.buffer[Cell(x', y', f.width)] == f.buffer[..][Cell(x', y', f.width)];
  }
}
