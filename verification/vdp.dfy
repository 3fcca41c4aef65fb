/**
 * The video display processor (src/video/vdp.cpp): its port interface,
 * register file, counters and the scanline renderer.
 *
 * The CPU reaches the VDP through four ports. The data port reads and
 * writes VRAM (or CRAM) at a 14-bit address that advances after every
 * access, with reads served from a one-byte read-ahead buffer. The control
 * port takes a two-byte command word: the first byte sets the low address
 * bits, the second the high bits and a 2-bit code that selects VRAM read,
 * VRAM write, register write or CRAM write. Reading the control port
 * returns the status and clears its vblank and overflow flags.
 *
 * Every clock advances the column counter; a full line advances the line
 * counter, and the last line completes the frame. The frame interrupt is
 * raised at column 304 of the first line below the active area, and the
 * line interrupt when the raster counter underflows. At column 255 of each
 * visible line the renderer draws the background, the sprites and the
 * masked left column into the framebuffer, which holds CRAM entries.
 */
module Video {
  import opened Console
  import opened VdpRegs
  import Bitplanes
  import Frames
  import opened VdpRender
  import VdpTiming

  /** Registers 0 to 10 of the VDP, in order. */
  const RegisterCount := 11

  /** `setSpriteAttributeTableAddr`: bits 1-6 of reg5 select a 256-byte page. */
  function SpriteTableBase(reg5: bv8): (a: int)
    ensures 0 <= a <= 0x3f00 && a % 0x100 == 0
  {
    ((reg5 >> 1) & 0x3f) as int * 0x100
  }

  /** `setNameTableAddr`: bits 1-3 of reg2 select a 2 KiB page. */
  function NameTableBase(reg2: bv8): (a: int)
    ensures 0 <= a <= 0x3800 && a % 0x800 == 0
  {
    ((reg2 >> 1) & 0x07) as int * 0x800
  }

  /** The next VRAM address: the register wraps at 16 KiB. */
  function Next(addr: int): (n: int)
    requires 0 <= addr < VramSize
    ensures 0 <= n < VramSize && (addr < VramSize - 1 ==> n == addr + 1) && (addr == VramSize - 1 ==> n == 0)
  {
    if addr == VramSize - 1 then 0 else addr + 1
  }

  /** The command word after its first byte: the low byte is replaced, the high byte kept. */
  function WithLow(commandWord: bv16, data: bv8): (w: bv16)
    ensures w & 0xff == data as bv16 && w & 0xff00 == commandWord & 0xff00
  {
    (commandWord & 0xff00) | data as bv16
  }

  /** The command word after its second byte: the high byte is replaced, the low byte kept. */
  function WithHigh(commandWord: bv16, data: bv8): (w: bv16)
    ensures w >> 8 == data as bv16 && w & 0xff == commandWord & 0xff
  {
    (commandWord & 0x00ff) | (data as bv16 << 8)
  }

  /** The code: the top two bits of the command word. */
  function Code(commandWord: bv16): (c: int)
    ensures 0 <= c < 4
  {
    (commandWord >> 14) as int
  }

  /** The address: the low 14 bits of the command word. */
  function Address(commandWord: bv16): (a: int)
    ensures 0 <= a < VramSize
  {
    (commandWord & 0x3fff) as int
  }

  /** The value a register write stores: the low byte of the command word. */
  function RegisterValue(commandWord: bv16): bv8
  {
    (commandWord & 0xff) as bv8
  }

  /** Bits 8-11 of the command word name the register a code 2 command writes. */
  function RegisterNumber(commandWord: bv16): (n: int)
    ensures 0 <= n < 16
  {
    ((commandWord >> 8) & 0x0f) as int
  }

  /** CRAM writes use the low five address bits. */
  function CramIndex(addr: int): (i: int)
    ensures 0 <= i < CramSize
  {
    addr % CramSize
  }

  /** The geometry after the register write `number := value`, when it touches reg0 or reg1. */
  function NewGeometry(regs: seq<bv8>, g: Geometry): Geometry
    requires |regs| == RegisterCount
  {
    match ModeGeometry(ModeNumber(regs[0], regs[1]))
    case Some(g') => g'
    case None => g
  }

  /** A status byte with the flags of `mask` raised when `b` holds. */
  function Raise(status: bv8, mask: bv8, b: bool): (r: bv8)
    ensures b ==> r & mask == mask
    ensures r & !mask == status & !mask
    ensures !b ==> r == status
  {
    if b then status | mask else status
  }

  /**
   * What one clock draws: nothing off the visible area, the backdrop pixel
   * with the display blanked, and the full compositing order otherwise.
   */
  function Painted(buf: seq<bv8>, s: Scene, visible: bool, enabled: bool): (r: seq<bv8>)
    requires SceneOk(s)
    ensures |r| == |buf|
    ensures !visible ==> r == buf
  {
    if !visible then buf
    else if enabled then Composite(buf, s, Select(s, 0, []).0)
    else Plot(buf, s.h + s.v * 256, Backdrop(s))
  }

  /** Whether one clock sets the sprite overflow flag. */
  predicate Overflowed(s: Scene, visible: bool, enabled: bool)
    requires SceneOk(s)
  {
    visible && enabled && s.h == 0xff && Select(s, 0, []).1
  }

  function ToByte(b: bv8): VdpTiming.Byte
  {
    b as int
  }

  /** The command latch and the registers with the settings decoded from them. */
  datatype Setup = Setup(commandWord: bv16, codeReg: int, regs: seq<bv8>, sprAttrTabAddr: int, nameTabAddr: int,
                         videoMode: bv8, activePeriod: int, additionalScan: int, rowNumber: int)

  /**
   * What one `clock` starts from: the frame buffer, the scene the renderer
   * reads, whether the beam is on a visible cell and the display enabled,
   * the status byte, the counters and the registers they depend on.
   */
  datatype ClockStart = ClockStart(buf: seq<bv8>, scene: Scene, visible: bool, enabled: bool, status: bv8,
                                   beam: VdpTiming.Beam, screen: VdpTiming.Screen)

  /** `sprCounter`: how many sprites the line's scan kept. */
  type SpriteCount = n: int | 0 <= n <= MaxSpritePerLine

  class Vdp {
    /** reg0 .. reg10. */
    var regs: seq<bv8>
    var status: bv8
    const vram: array<bv8>
    const cram: array<bv8>
    var sprAttrTabAddr: int
    var nameTabAddr: int

    var hCount: int
    var vCount: int
    var scanlineLength: int
    var scanlineNumber: int
    /** `nFrameCounter` and `nCycleCounter`, 32-bit. */
    var frameCounter: VdpTiming.Word32
    var cycleCounter: VdpTiming.Word32

    var firstByteRecv: bool
    var readBuf: bv8
    var commandWord: bv16
    var addrReg: int
    var codeReg: int

    var videoStd: bv8
    var videoMode: bv8
    var activePeriod: int
    var additionalScan: int
    /** `raster_counter`, 8-bit. */
    var rasterCounter: VdpTiming.Byte
    var rowNumber: int

    const sprBuffer: array<int>
    var sprCounter: SpriteCount
    var frameComplete: bool

    const frameBuffer: Frames.FrameBuffer
    const shifter: Bitplanes.BitplaneShifter

    /** Sizes of the memories and the ranges the port registers stay in. */
    ghost predicate PortsValid()
      reads this
    {
      |regs| == RegisterCount &&
      0 <= addrReg < VramSize && 0 <= codeReg < 4 &&
      0 <= sprAttrTabAddr <= 0x3f00 && 0 <= nameTabAddr <= 0x3800 && 0 < rowNumber <= 32 &&
      activePeriod in {192, 224, 240} && 0 <= additionalScan && activePeriod + additionalScan <= 256
    }

    /** The counters stay inside a frame. */
    ghost predicate CountersValid()
      reads this
    {
      scanlineLength == ScanlineLength && scanlineNumber == ScanlineNumber(videoStd) &&
      0 <= hCount <= scanlineLength && 0 <= vCount < scanlineNumber
    }

    /** The counters as the timing model's `Beam`. */
    function BeamOf(): VdpTiming.Beam
      reads this
    {
      VdpTiming.Beam(hCount, vCount, rasterCounter, frameCounter, cycleCounter, frameComplete)
    }

    /** The registers the counters depend on. */
    function ScreenOf(): VdpTiming.Screen
      reads this
      requires |regs| == RegisterCount
    {
      VdpTiming.Screen(activePeriod, scanlineNumber, ToByte(regs[10]), Ie0(regs[1]), Ie1(regs[0]))
    }

    /** The cell of the current beam position is on the visible part of the frame. */
    predicate Visible()
      reads this
    {
      hCount < 256 && vCount < activePeriod + additionalScan
    }

    /**
     * The memories are distinct arrays of the declared sizes, the shifter
     * has the four planes of `bplShifter{4}` with its past-the-end slot
     * clear, and the framebuffer is 256 by 240.
     */
    ghost predicate MemValid()
      reads frameBuffer, shifter
    {
      vram.Length == VramSize && cram.Length == CramSize && sprBuffer.Length == 64 &&
      shifter.Valid() && shifter.count == 4 &&
      frameBuffer.buffer.Length == 61440 && frameBuffer.width == 256 && frameBuffer.height == 240 &&
      vram != cram && vram != shifter.planes && cram != shifter.planes &&
      frameBuffer.buffer != vram && frameBuffer.buffer != cram && frameBuffer.buffer != shifter.planes
    }

    ghost predicate Valid()
      reads this, frameBuffer, shifter
    {
      PortsValid() && CountersValid() && MemValid()
    }

    /**
     * `VDP()` followed by `SetVideoStandard(std)`. The name and sprite
     * table addresses, the row count, the video mode and the memories are
     * not initialised there, so they are parameters.
     */
    constructor (std: bv8, vram0: seq<bv8>, cram0: seq<bv8>, nameTab: int, sprTab: int, rows: int, mode: bv8)
      requires std <= 1 && |vram0| == VramSize && |cram0| == CramSize
      requires 0 <= nameTab <= 0x3800 && 0 <= sprTab <= 0x3f00 && 0 < rows <= 32
      ensures Valid() && fresh(vram) && fresh(cram) && fresh(frameBuffer) && fresh(frameBuffer.buffer)
      ensures vram[..] == vram0 && cram[..] == cram0
      ensures regs == [0x36, 0xa0, 0xff, 0xff, 0xff, 0xff, 0xfb, 0x00, 0x00, 0x00, 0xff] && status == 0
      ensures hCount == 0 && vCount == 0 && commandWord == 0 && codeReg == 0 && addrReg == 0 && readBuf == 0
      ensures !frameComplete && !firstByteRecv && rasterCounter == 0 && activePeriod == 192 && additionalScan == 0
      ensures videoStd == std && scanlineNumber == ScanlineNumber(std) && ShifterClear()
    {
      regs := [0x36, 0xa0, 0xff, 0xff, 0xff, 0xff, 0xfb, 0x00, 0x00, 0x00, 0xff];
      status := 0;
      vram := new bv8[VramSize](i requires 0 <= i < VramSize => vram0[i]);
      cram := new bv8[CramSize](i requires 0 <= i < CramSize => cram0[i]);
      sprAttrTabAddr := sprTab;
      nameTabAddr := nameTab;
      hCount := 0;
      vCount := 0;
      scanlineLength := ScanlineLength;
      scanlineNumber := ScanlineNumber(std);
      frameCounter := 0;
      cycleCounter := 0;
      firstByteRecv := false;
      readBuf := 0;
      commandWord := 0;
      addrReg := 0;
      codeReg := 0;
      videoStd := std;
      videoMode := mode;
      activePeriod := 192;
      additionalScan := 0;
      rasterCounter := 0;
      rowNumber := rows;
      sprBuffer := new int[64];
      sprCounter := 0;
      frameComplete := false;
      frameBuffer := new Frames.FrameBuffer(256, 240);
      shifter := new Bitplanes.BitplaneShifter(4, [0, 0, 0, 0, 0]);
      new;
      assert vram[..] == vram0;
      assert cram[..] == cram0;
    }

    /** `reset`: the registers, counters and port state of the constructor; memories and tables stay. */
    method Reset() returns (ok: bool)
      requires Valid()
      modifies this`hCount, this`vCount, this`frameCounter, this`cycleCounter, this`regs, this`status,
               this`commandWord, this`codeReg, this`addrReg, this`readBuf, this`frameComplete,
               this`firstByteRecv, this`rasterCounter, this`activePeriod
      ensures Valid() && ok && ResetDone()
    {
      ResetCounters();
      ResetPorts();
      regs := [0x36, 0xa0, 0xff, 0xff, 0xff, 0xff, 0xfb, 0x00, 0x00, 0x00, 0xff];
      status := 0;
      activePeriod := 192;
      ok := true;
    }

    /**
     * The state `reset` leaves: the power-on register values, the status,
     * the beam, the frame and cycle counts and the port latches cleared,
     * and 192 active lines.
     */
    ghost predicate ResetDone()
      reads this
    {
      && regs == [0x36, 0xa0, 0xff, 0xff, 0xff, 0xff, 0xfb, 0x00, 0x00, 0x00, 0xff] && status == 0
      && hCount == 0 && vCount == 0 && frameCounter == 0 && cycleCounter == 0
      && commandWord == 0 && codeReg == 0 && addrReg == 0 && readBuf == 0
      && !frameComplete && !firstByteRecv && rasterCounter == 0 && activePeriod == 192
    }

    /** The counter half of `reset`. */
    method ResetCounters()
      modifies this`hCount, this`vCount, this`frameCounter, this`cycleCounter, this`frameComplete, this`rasterCounter
      ensures hCount == 0 && vCount == 0 && frameCounter == 0 && cycleCounter == 0
      ensures !frameComplete && rasterCounter == 0
    {
      hCount, vCount, frameCounter, cycleCounter := 0, 0, 0, 0;
      frameComplete, rasterCounter := false, 0;
    }

    /** The port half of `reset`. */
    method ResetPorts()
      modifies this`commandWord, this`codeReg, this`addrReg, this`readBuf, this`firstByteRecv
      ensures commandWord == 0 && codeReg == 0 && addrReg == 0 && readBuf == 0 && !firstByteRecv
    {
      commandWord, codeReg, addrReg, readBuf, firstByteRecv := 0, 0, 0, 0, false;
    }

    // ---------------------------------------------------------------- ports

    /** `readDataPort`: the buffered byte, then refill the buffer from VRAM and advance. */
    method ReadDataPort() returns (data: bv8)
      requires Valid()
      modifies this`firstByteRecv, this`readBuf, this`addrReg
      ensures Valid()
      ensures data == old(readBuf) && readBuf == vram[old(addrReg)] && addrReg == Next(old(addrReg))
      ensures !firstByteRecv
    {
      firstByteRecv := false;
      data := readBuf;
      readBuf := vram[addrReg];
      addrReg := Next(addrReg);
    }

    /**
     * `writeDataPort`: codes 0-2 store into VRAM, code 3 into CRAM at the
     * low five address bits; every code but 2 also loads the read buffer.
     */
    method WriteDataPort(data: bv8)
      requires Valid()
      modifies this`firstByteRecv, this`readBuf, this`addrReg, vram, cram
      ensures Valid()
      ensures DataWritten(data, old(vram[..]), old(cram[..]), old(codeReg), old(addrReg), old(readBuf))
    {
      firstByteRecv := false;
      if codeReg == 0 || codeReg == 1 {
        vram[addrReg] := data;
        addrReg := Next(addrReg);
        readBuf := data;
      } else if codeReg == 2 {
        vram[addrReg] := data;
        addrReg := Next(addrReg);
      } else {
        cram[CramIndex(addrReg)] := data;
        addrReg := Next(addrReg);
        readBuf := data;
      }
    }

    /**
     * The state after a data-port write from the given memories and port
     * state: codes 0-2 store into VRAM, code 3 into CRAM, every code but 2
     * loads the read buffer, and the address steps.
     */
    ghost predicate DataWritten(data: bv8, vram0: seq<bv8>, cram0: seq<bv8>, codeReg0: int, addrReg0: int, readBuf0: bv8)
      reads this, vram, cram
    {
      && 0 <= addrReg0 < |vram0| == VramSize && |cram0| == CramSize
      && vram[..] == (if codeReg0 < 3 then vram0[addrReg0 := data] else vram0)
      && cram[..] == (if codeReg0 == 3 then cram0[CramIndex(addrReg0) := data] else cram0)
      && readBuf == (if codeReg0 == 2 then readBuf0 else data)
      && addrReg == Next(addrReg0) && !firstByteRecv
    }

    /** `readControlPort`: the status byte, then vblank and sprovf are cleared. */
    method ReadControlPort() returns (data: bv8)
      requires Valid()
      modifies this`firstByteRecv, this`status
      ensures Valid()
      ensures data == old(status) && status == StatusAfterRead(old(status)) && !firstByteRecv
    {
      firstByteRecv := false;
      data := status;
      status := StatusAfterRead(status);
    }

    /**
     * `writeControlPort`: the first byte replaces the low byte of the
     * command word; the second replaces the high byte, decodes the code
     * and address, and for code 0 prefetches VRAM, for code 2 writes a
     * register.
     */
    method WriteControlPort(data: bv8)
      requires Valid()
      modifies this`commandWord, this`addrReg, this`firstByteRecv, this`codeReg, this`readBuf,
               this`regs, this`sprAttrTabAddr, this`nameTabAddr, this`videoMode, this`activePeriod,
               this`additionalScan, this`rowNumber
      ensures Valid()
      ensures ControlWritten(data, old(firstByteRecv), old(commandWord), old(codeReg), old(readBuf), old(regs))
    {
      if firstByteRecv {
        SecondControlByte(data);
      } else {
        FirstControlByte(data);
      }
    }

    /** The state after a control-port write: the first or the second byte of a command. */
    ghost predicate ControlWritten(data: bv8, first0: bool, commandWord0: bv16, codeReg0: int, readBuf0: bv8,
                                   regs0: seq<bv8>)
      reads this, vram
    {
      && |regs0| == RegisterCount
      && (!first0 ==> FirstByteDone(data, commandWord0, codeReg0, readBuf0, regs0))
      && (first0 ==> SecondByteDone(data, commandWord0, readBuf0, regs0))
    }

    /** The state after a first command byte: the low byte is replaced and the address follows it. */
    ghost predicate FirstByteDone(data: bv8, commandWord0: bv16, codeReg0: int, readBuf0: bv8, regs0: seq<bv8>)
      reads this
    {
      && commandWord == WithLow(commandWord0, data)
      && addrReg == Address(commandWord) && firstByteRecv
      && codeReg == codeReg0 && readBuf == readBuf0 && regs == regs0
    }

    /**
     * The state after a second command byte: the high byte is replaced, the
     * code and address decoded, code 0 prefetched and code 2 written to a
     * register.
     */
    ghost predicate SecondByteDone(data: bv8, commandWord0: bv16, readBuf0: bv8, regs0: seq<bv8>)
      requires |regs0| == RegisterCount
      reads this, vram
    {
      && commandWord == WithHigh(commandWord0, data)
      && !firstByteRecv && codeReg == Code(commandWord)
      && (codeReg == 0 ==> vram.Length == VramSize && readBuf == vram[Address(commandWord)]
                           && addrReg == Next(Address(commandWord)))
      && (codeReg != 0 ==> readBuf == readBuf0 && addrReg == Address(commandWord))
      && regs == (if codeReg == 2 then WrittenRegs(regs0, commandWord) else regs0)
    }

    method FirstControlByte(data: bv8)
      requires Valid()
      modifies this`commandWord, this`addrReg, this`firstByteRecv
      ensures Valid()
      ensures FirstByteDone(data, old(commandWord), old(codeReg), old(readBuf), old(regs))
    {
      commandWord := WithLow(commandWord, data);
      addrReg := Address(commandWord);
      firstByteRecv := true;
    }

    method SecondControlByte(data: bv8)
      requires Valid()
      modifies this`commandWord, this`addrReg, this`firstByteRecv, this`codeReg, this`readBuf,
               this`regs, this`sprAttrTabAddr, this`nameTabAddr, this`videoMode, this`activePeriod,
               this`additionalScan, this`rowNumber
      ensures Valid()
      ensures SecondByteDone(data, old(commandWord), old(readBuf), old(regs))
    {
      LatchHigh(data);
      if codeReg == 0 {
        Prefetch();
      } else if codeReg == 2 {
        WriteRegister();
      }
    }

    /** The decoding half of the second byte. */
    method LatchHigh(data: bv8)
      requires Valid()
      modifies this`commandWord, this`addrReg, this`firstByteRecv, this`codeReg
      ensures Valid()
      ensures commandWord == WithHigh(old(commandWord), data) && !firstByteRecv
      ensures codeReg == Code(commandWord) && addrReg == Address(commandWord)
    {
      commandWord := WithHigh(commandWord, data);
      firstByteRecv := false;
      codeReg := Code(commandWord);
      addrReg := Address(commandWord);
    }

    /** A VRAM read command loads the read buffer at once and advances the address. */
    method Prefetch()
      requires Valid()
      modifies this`readBuf, this`addrReg
      ensures Valid()
      ensures readBuf == vram[old(addrReg)] && addrReg == Next(old(addrReg))
    {
      readBuf := vram[addrReg];
      addrReg := Next(addrReg);
    }

    /** The register file after `writeRegister`: bits 8-11 name the register, the low byte is the value. */
    static function WrittenRegs(regs: seq<bv8>, commandWord: bv16): (r: seq<bv8>)
      requires |regs| == RegisterCount
      ensures |r| == RegisterCount
    {
      var n := RegisterNumber(commandWord);
      if n < RegisterCount then regs[n := RegisterValue(commandWord)] else regs
    }

    /**
     * `writeRegister`: store the value; writes to reg0 or reg1 recompute the
     * mode and geometry, reg5 the sprite table and reg6 the name table,
     * the latter from reg2.
     */
    method WriteRegister()
      requires Valid()
      modifies this`regs, this`sprAttrTabAddr, this`nameTabAddr, this`videoMode, this`activePeriod,
               this`additionalScan, this`rowNumber
      ensures Valid()
      ensures regs == WrittenRegs(old(regs), old(commandWord))
      ensures var n := RegisterNumber(old(commandWord));
              && (n == 0 || n == 1 ==>
                    && Geometry(activePeriod, additionalScan, rowNumber)
                       == NewGeometry(regs, Geometry(old(activePeriod), old(additionalScan), old(rowNumber)))
                    && videoMode == VideoMode(ModeNumber(regs[0], regs[1]), old(videoMode)))
              && (n != 0 && n != 1 ==>
                    && activePeriod == old(activePeriod) && additionalScan == old(additionalScan)
                    && rowNumber == old(rowNumber) && videoMode == old(videoMode))
              && sprAttrTabAddr == (if n == 5 then SpriteTableBase(regs[5]) else old(sprAttrTabAddr))
              && nameTabAddr == (if n == 6 then NameTableBase(regs[2]) else old(nameTabAddr))
    {
      var n := RegisterNumber(commandWord);
      if n < RegisterCount {
        regs := regs[n := RegisterValue(commandWord)];
      }
      if n == 0 || n == 1 {
        SetVideoMode();
      } else if n == 5 {
        sprAttrTabAddr := SpriteTableBase(regs[5]);
      } else if n == 6 {
        nameTabAddr := NameTableBase(regs[2]);
      }
    }

    /** `setVideoMode`: Mode 4 codes set the geometry; other codes leave it. */
    method SetVideoMode()
      requires Valid()
      modifies this`videoMode, this`activePeriod, this`additionalScan, this`rowNumber
      ensures Valid()
      ensures Geometry(activePeriod, additionalScan, rowNumber)
              == NewGeometry(regs, Geometry(old(activePeriod), old(additionalScan), old(rowNumber)))
      ensures videoMode == VideoMode(ModeNumber(regs[0], regs[1]), old(videoMode))
    {
      var mode := ModeNumber(regs[0], regs[1]);
      match ModeGeometry(mode) {
        case Some(g) =>
          GeometryBounds(mode);
          activePeriod, additionalScan, rowNumber := g.activePeriod, g.additionalScan, g.rowNumber;
        case None =>
      }
      videoMode := VideoMode(mode, videoMode);
    }

    /** `read`: the V counter, the H counter, the data port or the control port. */
    method Read(addr: bv8, data: bv8) returns (ok: bool, data': bv8)
      requires Valid()
      modifies this`firstByteRecv, this`readBuf, this`addrReg, this`status
      ensures Valid() && ok
      ensures addr == 0x40 ==> data' == VCountByte(vCount, scanlineNumber, videoStd, activePeriod) as bv8
      ensures addr == 0x41 ==> data' == HCountByte(hCount) as bv8
      ensures addr == 0x80 ==> data' == old(readBuf) && readBuf == vram[old(addrReg)] && addrReg == Next(old(addrReg))
      ensures addr == 0x81 ==> data' == old(status) && status == StatusAfterRead(old(status))
      ensures addr != 0x40 && addr != 0x41 && addr != 0x80 && addr != 0x81 ==> data' == data
      ensures addr != 0x80 ==> readBuf == old(readBuf) && addrReg == old(addrReg)
      ensures addr != 0x81 ==> status == old(status)
    {
      data' := data;
      if addr == 0x40 {
        data' := VCountByte(vCount, scanlineNumber, videoStd, activePeriod) as bv8;
      } else if addr == 0x41 {
        data' := HCountByte(hCount) as bv8;
      } else if addr == 0x80 {
        data' := ReadDataPort();
      } else if addr == 0x81 {
        data' := ReadControlPort();
      }
      ok := true;
    }

    /** The state only the control port writes, as a value. */
    function SetupOf(): Setup
      reads this
    {
      Setup(commandWord, codeReg, regs, sprAttrTabAddr, nameTabAddr, videoMode, activePeriod, additionalScan, rowNumber)
    }

    /** `write`: the data port or the control port; other addresses are ignored. */
    method Write(addr: bv8, data: bv8) returns (ok: bool)
      requires Valid()
      modifies this`firstByteRecv, this`readBuf, this`addrReg, vram, cram,
               this`commandWord, this`codeReg, this`regs, this`sprAttrTabAddr, this`nameTabAddr,
               this`videoMode, this`activePeriod, this`additionalScan, this`rowNumber
      ensures Valid() && ok
      ensures addr == 0x80 ==> DataWritten(data, old(vram[..]), old(cram[..]), old(codeReg), old(addrReg), old(readBuf))
      ensures addr == 0x81 ==>
                ControlWritten(data, old(firstByteRecv), old(commandWord), old(codeReg), old(readBuf), old(regs))
      ensures addr != 0x80 ==> vram[..] == old(vram[..]) && cram[..] == old(cram[..])
      ensures addr != 0x81 ==> SetupOf() == old(SetupOf())
      ensures addr != 0x80 && addr != 0x81 ==>
                addrReg == old(addrReg) && readBuf == old(readBuf) && firstByteRecv == old(firstByteRecv)
    {
      if addr == 0x80 {
        WriteDataPort(data);
      } else if addr == 0x81 {
        WriteControlPort(data);
      }
      ok := true;
    }

    // ---------------------------------------------------------------- renderer

    /** The slot past the four planes stays clear, so every colour is below 16. */
    ghost predicate ShifterClear()
      reads shifter, shifter.planes
    {
      shifter.planes.Length == 5 && shifter.planes[4] == 0
    }

    /** The state the renderer reads. */
    function SceneOf(): (s: Scene)
      reads this, vram, cram
      ensures (|regs| == RegisterCount && vram.Length == VramSize && cram.Length == CramSize &&
               0 <= nameTabAddr && 0 <= sprAttrTabAddr && 0 < rowNumber && 0 <= hCount && 0 <= vCount) ==> SceneOk(s)
    {
      Scene(vram[..], cram[..], regs, nameTabAddr, sprAttrTabAddr, rowNumber, activePeriod, hCount, vCount)
    }

    /** `pFrameBuffer->SetPixel(x, y, c)` on the 256-wide buffer; a cell outside it is not written. */
    method PlotPixel(x: int, y: int, c: bv8)
      requires MemValid()
      modifies frameBuffer.buffer
      ensures frameBuffer.buffer[..] == Plot(old(frameBuffer.buffer[..]), x + y * 256, c)
    {
      if 0 <= x + y * 256 < frameBuffer.buffer.Length {
        assert Frames.Cell(x, y, frameBuffer.width) == x + y * 256;
        var _ := frameBuffer.SetPixel(x, y, c);
      }
    }

    /** Four `LoadBitplane` calls: planes 0 to 3 take a tile row. */
    method LoadTile(t: Tile)
      requires MemValid() && ShifterClear() && TileOk(t)
      modifies shifter.planes
      ensures ShifterClear() && shifter.planes[..] == t.planes
    {
      var _ := shifter.LoadBitplane(0, t.planes[0]);
      var _ := shifter.LoadBitplane(1, t.planes[1]);
      var _ := shifter.LoadBitplane(2, t.planes[2]);
      var _ := shifter.LoadBitplane(3, t.planes[3]);
      assert shifter.planes[..] == t.planes;
    }

    /** Eight `GetPixelColor` calls, each opaque pixel stored as its CRAM entry. */
    method DrawRow(t: Tile, y: int)
      requires MemValid() && ShifterClear() && TileOk(t) && shifter.planes[..] == t.planes
      modifies frameBuffer.buffer, shifter.planes
      ensures ShifterClear()
      ensures frameBuffer.buffer[..] == PaintRow(old(frameBuffer.buffer[..]), cram[..], t, y, 8)
      ensures shifter.planes[..] == Bitplanes.ShiftN(t.planes, 8)
    {
      ghost var before := frameBuffer.buffer[..];
      assert shifter.planes[..] == Bitplanes.ShiftN(t.planes, 0);
      var j := 0;
      while j < 8
        invariant 0 <= j <= 8
        invariant shifter.planes[..] == Bitplanes.ShiftN(t.planes, j)
        invariant frameBuffer.buffer[..] == PaintRow(before, cram[..], t, y, j)
      {
        DrawPixel(t, y, j, before);
        j := j + 1;
      }
    }

    /** One `GetPixelColor` of `DrawRow`: pixel j is painted unless transparent. */
    method DrawPixel(t: Tile, y: int, j: nat, ghost before: seq<bv8>)
      requires MemValid() && ShifterClear() && TileOk(t) && j < 8
      requires shifter.planes[..] == Bitplanes.ShiftN(t.planes, j)
      requires frameBuffer.buffer[..] == PaintRow(before, cram[..], t, y, j)
      modifies frameBuffer.buffer, shifter.planes
      ensures ShifterClear()
      ensures shifter.planes[..] == Bitplanes.ShiftN(t.planes, j + 1)
      ensures frameBuffer.buffer[..] == PaintRow(before, cram[..], t, y, j + 1)
    {
      Bitplanes.ShiftAgain(t.planes, j);
      var color := shifter.GetPixelColor();
      assert color == PixelColor(t.planes, j);
      if color != 0 {
        var x := if t.wrap then (t.x0 + j) % 256 else t.x0 + j;
        PlotPixel(x, y, cram[t.palette * 16 + color as int]);
      }
    }

    /**
     * `RenderBackground(priority)` on the state `s`: at column 255, each of
     * the 32 columns loads its tile row and, when the tile's priority bit
     * matches, draws it.
     */
    method RenderBackground(s: Scene, priority: bv8)
      requires MemValid() && ShifterClear() && SceneOk(s) && s.cram == cram[..]
      modifies frameBuffer.buffer, shifter.planes
      ensures ShifterClear()
      ensures s.h != 0xff ==>
                frameBuffer.buffer[..] == old(frameBuffer.buffer[..]) && shifter.planes[..] == old(shifter.planes[..])
      ensures s.h == 0xff ==>
                && frameBuffer.buffer[..] == BgPass(old(frameBuffer.buffer[..]), s, priority, 32)
                && var t := BgTile(s, 31);
                   shifter.planes[..] == AfterTile(t, t.priority == priority)
    {
      if s.h == 0xff {
        ghost var before := frameBuffer.buffer[..];
        var col := 0;
        while col < 32
          invariant 0 <= col <= 32 && ShifterClear()
          invariant frameBuffer.buffer[..] == BgPass(before, s, priority, col)
          invariant col > 0 ==> var t := BgTile(s, col - 1); shifter.planes[..] == AfterTile(t, t.priority == priority)
        {
          BackgroundColumn(s, priority, col, before);
          col := col + 1;
        }
      }
    }

    /** One column of `RenderBackground`. */
    method BackgroundColumn(s: Scene, priority: bv8, col: int, ghost before: seq<bv8>)
      requires MemValid() && ShifterClear() && SceneOk(s) && s.cram == cram[..] && 0 <= col < 32
      requires frameBuffer.buffer[..] == BgPass(before, s, priority, col)
      modifies frameBuffer.buffer, shifter.planes
      ensures ShifterClear()
      ensures frameBuffer.buffer[..] == BgPass(before, s, priority, col + 1)
      ensures var t := BgTile(s, col); shifter.planes[..] == AfterTile(t, t.priority == priority)
    {
      var t := BgTile(s, col);
      LoadTile(t);
      if t.priority == priority {
        DrawRow(t, s.v % 256);
      }
    }

    /**
     * The sprite scan of `RenderSprites`: the sprites on the current line in
     * table order, at most eight, stopping at a 0xd0 terminator in 192-line
     * mode; a ninth sprite on the line sets the overflow flag and ends the scan.
     */
    method SelectSprites(s: Scene)
      requires MemValid() && SceneOk(s)
      modifies sprBuffer, this`sprCounter, this`status
      ensures var r := Select(s, 0, []);
              && sprBuffer[..sprCounter] == r.0
              && status == Raise(old(status), SprOvfMask, r.1)
    {
      var overflow := ScanSprites(s);
      if overflow {
        status := status | SprOvfMask;
      }
    }

    /** The scan loop of `SelectSprites`; `overflow` is the break on a ninth sprite. */
    method ScanSprites(s: Scene) returns (overflow: bool)
      requires MemValid() && SceneOk(s)
      modifies sprBuffer, this`sprCounter
      ensures (sprBuffer[..sprCounter], overflow) == Select(s, 0, [])
    {
      sprCounter := 0;
      overflow := false;
      ghost var sel: seq<int> := [];
      var i := 0;
      while i < 64
        invariant 0 <= i <= 64 && !overflow
        invariant sel == sprBuffer[..sprCounter] && |sel| == sprCounter
        invariant Select(s, 0, []) == Select(s, i, sel)
      {
        if Terminator(s, i) {
          break;
        }
        if Covers(s, i) {
          if sprCounter < MaxSpritePerLine {
            Keep(i, sel);
            sel := sel + [i];
          } else {
            overflow := true;
            break;
          }
        }
        i := i + 1;
      }
    }

    /** `sprBuffer[sprCounter] = i; sprCounter++`. */
    method Keep(i: int, ghost sel: seq<int>)
      requires sprBuffer.Length == 64 && sprCounter < MaxSpritePerLine && sel == sprBuffer[..sprCounter]
      modifies sprBuffer, this`sprCounter
      ensures sprCounter == old(sprCounter) + 1 && sprBuffer[..sprCounter] == sel + [i]
    {
      sprBuffer[sprCounter] := i;
      sprCounter := sprCounter + 1;
      assert sprBuffer[..sprCounter] == sel + [i];
    }

    /** The drawing half of `RenderSprites`: each selected sprite's row, in buffer order. */
    method DrawSprites(s: Scene)
      requires MemValid() && ShifterClear() && SceneOk(s) && s.cram == cram[..]
      modifies frameBuffer.buffer, shifter.planes
      ensures ShifterClear()
      ensures frameBuffer.buffer[..] == SpritePass(old(frameBuffer.buffer[..]), s, sprBuffer[..sprCounter], sprCounter)
    {
      ghost var before := frameBuffer.buffer[..];
      ghost var sel := sprBuffer[..sprCounter];
      var i := 0;
      while i < sprCounter
        invariant 0 <= i <= sprCounter == |sel| && MemValid() && ShifterClear() && s.cram == cram[..]
        invariant frameBuffer.buffer[..] == SpritePass(before, s, sel, i)
      {
        assert sprBuffer[i] == sel[i];
        DrawSprite(s, sel, i, sprBuffer[i], before);
        i := i + 1;
      }
    }

    /** One selected sprite of `RenderSprites`: its row on the current line. */
    method DrawSprite(s: Scene, ghost sel: seq<int>, n: int, index: int, ghost before: seq<bv8>)
      requires MemValid() && ShifterClear() && SceneOk(s) && s.cram == cram[..]
      requires 0 <= n < |sel| && index == sel[n]
      requires frameBuffer.buffer[..] == SpritePass(before, s, sel, n)
      modifies frameBuffer.buffer, shifter.planes
      ensures ShifterClear()
      ensures frameBuffer.buffer[..] == SpritePass(before, s, sel, n + 1)
      ensures shifter.planes[..] == Bitplanes.ShiftN(SpriteTile(s, index).planes, 8)
    {
      var t := SpriteTile(s, index);
      LoadTile(t);
      DrawRow(t, s.v);
    }

    /** `RenderSprites` on the state `s`: at column 255, select the line's sprites, flag an overflow, and draw them. */
    method RenderSprites(s: Scene)
      requires MemValid() && ShifterClear() && SceneOk(s) && s.cram == cram[..]
      modifies frameBuffer.buffer, shifter.planes, sprBuffer, this`sprCounter, this`status
      ensures ShifterClear()
      ensures s.h != 0xff ==>
                && frameBuffer.buffer[..] == old(frameBuffer.buffer[..]) && shifter.planes[..] == old(shifter.planes[..])
                && sprCounter == old(sprCounter) && status == old(status)
      ensures s.h == 0xff ==>
                var r := Select(s, 0, []);
                && sprBuffer[..sprCounter] == r.0
                && status == Raise(old(status), SprOvfMask, r.1)
                && frameBuffer.buffer[..] == SpritePass(old(frameBuffer.buffer[..]), s, r.0, |r.0|)
    {
      if s.h == 0xff {
        SelectSprites(s);
        DrawSprites(s);
      }
    }

    /** `MaskColumnOne` on the state `s`: at column 255 with `lcb`, the first eight pixels take the backdrop colour. */
    method MaskColumnOne(s: Scene)
      requires MemValid() && SceneOk(s)
      modifies frameBuffer.buffer
      ensures s.h != 0xff ==> frameBuffer.buffer[..] == old(frameBuffer.buffer[..])
      ensures s.h == 0xff ==> frameBuffer.buffer[..] == MaskPass(old(frameBuffer.buffer[..]), s)
    {
      if s.h == 0xff && Lcb(s.regs[0]) {
        ghost var before := frameBuffer.buffer[..];
        var i := 0;
        while i < 8
          invariant 0 <= i <= 8
          invariant frameBuffer.buffer[..] == FillLeft(before, s.v, Backdrop(s), i)
        {
          PlotPixel(i, s.v, Backdrop(s));
          i := i + 1;
        }
      }
    }

    /**
     * The drawing half of `clock`: on a visible cell the backdrop pixel,
     * and with the display enabled (`blk`) the passes of column 255.
     */
    method RenderCell()
      requires Valid() && ShifterClear()
      modifies frameBuffer.buffer, shifter.planes, sprBuffer, this`sprCounter, this`status
      ensures Valid() && ShifterClear()
      ensures frameBuffer.buffer[..] == Painted(old(frameBuffer.buffer[..]), old(SceneOf()), old(Visible()), old(Blk(regs[1])))
      ensures status == Raise(old(status), SprOvfMask, Overflowed(old(SceneOf()), old(Visible()), old(Blk(regs[1]))))
    {
      var s := SceneOf();
      if Blk(regs[1]) {
        if hCount < 256 && vCount < activePeriod + additionalScan {
          ComposeCell(s);
        }
      } else {
        if hCount < 256 && vCount < activePeriod + additionalScan {
          PlotPixel(hCount, vCount, Backdrop(s));
        }
      }
    }

    /** The five steps of a visible cell with the display enabled, in the order of `clock`. */
    method ComposeCell(s: Scene)
      requires MemValid() && ShifterClear() && SceneOk(s) && s.cram == cram[..]
      modifies frameBuffer.buffer, shifter.planes, sprBuffer, this`sprCounter, this`status
      ensures ShifterClear()
      ensures var r := Select(s, 0, []);
              && frameBuffer.buffer[..] == Composite(old(frameBuffer.buffer[..]), s, r.0)
              && status == Raise(old(status), SprOvfMask, s.h == 0xff && r.1)
    {
      PlotPixel(s.h, s.v, Backdrop(s));
      LowPasses(s);
      HighPasses(s);
    }

    /** The priority-0 background and the sprites. */
    method LowPasses(s: Scene)
      requires MemValid() && ShifterClear() && SceneOk(s) && s.cram == cram[..]
      modifies frameBuffer.buffer, shifter.planes, sprBuffer, this`sprCounter, this`status
      ensures ShifterClear()
      ensures var r := Select(s, 0, []);
              && (s.h == 0xff ==> frameBuffer.buffer[..] == LowPart(old(frameBuffer.buffer[..]), s, r.0))
              && (s.h != 0xff ==> frameBuffer.buffer[..] == old(frameBuffer.buffer[..]))
              && status == Raise(old(status), SprOvfMask, s.h == 0xff && r.1)
    {
      RenderBackground(s, 0);
      RenderSprites(s);
    }

    /** The priority-1 background and the left-column mask. */
    method HighPasses(s: Scene)
      requires MemValid() && ShifterClear() && SceneOk(s) && s.cram == cram[..]
      modifies frameBuffer.buffer, shifter.planes
      ensures ShifterClear()
      ensures s.h == 0xff ==> frameBuffer.buffer[..] == HighPart(old(frameBuffer.buffer[..]), s)
      ensures s.h != 0xff ==> frameBuffer.buffer[..] == old(frameBuffer.buffer[..])
    {
      RenderBackground(s, 1);
      MaskColumnOne(s);
    }

    /**
     * The counting half of `clock`: the timing model's `Tick`. It raises
     * vblank in the status and answers whether the CPU's interrupt line
     * is to be asserted.
     */
    method Count() returns (irq: bool)
      requires Valid()
      modifies this`hCount, this`vCount, this`frameComplete, this`frameCounter, this`status,
               this`rasterCounter, this`cycleCounter
      ensures Valid()
      ensures var t := VdpTiming.Tick(old(BeamOf()), old(ScreenOf()));
              BeamOf() == t.0 && irq == t.1.irq && status == Raise(old(status), VblankMask, t.1.vblank)
    {
      ghost var b0, g := BeamOf(), ScreenOf();
      NextLine();
      ghost var w := BeamOf();
      var frameIrq := FramePoints();
      var fired := CheckRasterCounter();
      ghost var r := VdpTiming.RasterStep(w.h, w.v, w.raster, g);
      assert rasterCounter == r.0 && fired == r.1;
      irq := frameIrq || (fired && hCount == 304 && Ie1(regs[0]));
      Advance();
      assert BeamOf() == VdpTiming.Beam(w.h + 1, w.v, r.0, w.frames, VdpTiming.Inc32(w.cycles), w.complete);
    }

    /** The column and cycle steps that end `clock`. */
    method Advance()
      requires Valid() && hCount < scanlineLength
      modifies this`hCount, this`cycleCounter
      ensures Valid()
      ensures hCount == old(hCount) + 1 && cycleCounter == VdpTiming.Inc32(old(cycleCounter))
    {
      hCount, cycleCounter := hCount + 1, VdpTiming.Inc32(cycleCounter);
    }

    /** The line and frame wrap at the start of the counting half. */
    method NextLine()
      requires Valid()
      modifies this`hCount, this`vCount, this`frameComplete, this`frameCounter
      ensures Valid() && hCount < scanlineLength
      ensures BeamOf() == VdpTiming.Wrap(old(BeamOf()), scanlineNumber)
    {
      if hCount == scanlineLength {
        hCount := 0;
        vCount := vCount + 1;
        if vCount == scanlineNumber {
          frameComplete := true;
          vCount := 0;
          frameCounter := VdpTiming.Inc32(frameCounter);
        }
      }
    }

    /** Vblank at column 303 and the frame interrupt at column 304 of the first line below the active area. */
    method FramePoints() returns (frameIrq: bool)
      requires Valid()
      modifies this`status
      ensures Valid()
      ensures status == Raise(old(status), VblankMask, vCount == activePeriod && hCount == 303)
      ensures frameIrq == (vCount == activePeriod && hCount == 304 && Ie0(regs[1]))
    {
      frameIrq := false;
      if vCount == activePeriod {
        if hCount == 303 {
          status := status | VblankMask;
        }
        if hCount == 304 && Ie0(regs[1]) {
          frameIrq := true;
        }
      }
    }

    /** `checkRasterCounter`. */
    method CheckRasterCounter() returns (fired: bool)
      requires Valid()
      modifies this`rasterCounter
      ensures Valid()
      ensures var r := VdpTiming.RasterStep(hCount, vCount, old(rasterCounter), old(ScreenOf()));
              rasterCounter == r.0 && fired == r.1
    {
      if vCount <= activePeriod {
        if hCount == 0 {
          rasterCounter := VdpTiming.Dec8(rasterCounter);
        }
        if rasterCounter == 0xff {
          if hCount == scanlineLength - 1 {
            rasterCounter := ToByte(regs[10]);
          }
          return true;
        }
      } else {
        rasterCounter := ToByte(regs[10]);
      }
      return false;
    }

    /** `clock`: draw the current cell, then advance the counters. */
    method Clock() returns (irq: bool)
      requires Valid() && ShifterClear()
      modifies frameBuffer.buffer, shifter.planes, sprBuffer, this`sprCounter, this`status,
               this`hCount, this`vCount, this`frameComplete, this`frameCounter, this`rasterCounter, this`cycleCounter
      ensures Valid() && ShifterClear()
      ensures ClockedFrom(old(StartOf()), irq)
    {
      RenderCell();
      irq := Count();
    }

    /** The inputs of the next `clock`. */
    ghost function StartOf(): ClockStart
      reads this, vram, cram, frameBuffer, frameBuffer.buffer
      requires |regs| == RegisterCount
    {
      ClockStart(frameBuffer.buffer[..], SceneOf(), Visible(), Blk(regs[1]), status, BeamOf(), ScreenOf())
    }

    /**
     * The VDP after one `clock` from `c` that answered `irq`: the cell is
     * drawn as `Painted`, the counters move as the timing model's `Tick`,
     * which also decides the interrupt request, and the status gains the
     * sprite overflow and vblank flags when they are due.
     */
    ghost predicate ClockedFrom(c: ClockStart, irq: bool)
      reads this, frameBuffer, frameBuffer.buffer
    {
      var t := VdpTiming.Tick(c.beam, c.screen);
      && SceneOk(c.scene)
      && frameBuffer.buffer[..] == Painted(c.buf, c.scene, c.visible, c.enabled)
      && BeamOf() == t.0 && irq == t.1.irq
      && status == Raise(Raise(c.status, SprOvfMask, Overflowed(c.scene, c.visible, c.enabled)), VblankMask, t.1.vblank)
    }

    /** The VDP on a master tick that does not clock it: the picture, the status and the counters are as in `c`. */
    ghost predicate HeldFrom(c: ClockStart)
      reads this, frameBuffer, frameBuffer.buffer
    {
      frameBuffer.buffer[..] == c.buf && status == c.status && BeamOf() == c.beam
    }
  }

  // ------------------------------------------------------------ control port protocol

  /**
   * A command is its two bytes in order, whatever the word held before:
   * the second byte's top two bits are the code, and its low six bits with
   * the first byte are the address.
   */
  lemma CommandWordPair(w: bv16, lo: bv8, hi: bv8)
    ensures var w2 := WithHigh(WithLow(w, lo), hi);
            && Code(w2) == (hi >> 6) as int
            && Address(w2) == (hi & 0x3f) as int * 0x100 + lo as int
            && RegisterNumber(w2) == (hi & 0x0f) as int && RegisterValue(w2) == lo
  {
  }
}
