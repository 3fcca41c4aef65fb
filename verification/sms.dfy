/**
 * The console object of src/SMS.cpp: the master clock that drives the video
 * display processor, the CPU and the sound chip, the frame loop, and the
 * memory and I/O decode the CPU's bus requests go through.
 *
 * The master clock ticks at the VDP's pixel rate times two: the VDP runs on
 * every second tick and the CPU and the PSG on every third. The 8 KiB system
 * RAM answers at 0xC000..0xFFFF (mirrored in both halves) while the memory
 * control register enables it; everything below 0xC000 is the cartridge.
 * Only bits 7, 6 and 0 of a port number are decoded.
 */
module MasterSystem {
  import opened Console
  import opened VdpRegs
  import VdpTiming
  import Z80Decode
  import Z80Regs
  import Z80Cpu
  import Video
  import SoundChip
  import NoiseGenerator
  import MemoryControl
  import SegaMapper
  import Joypad

  /** `masterclock_cycles`, a `uint64_t`. */
  type Word64 = x: int | 0 <= x < 0x1_0000_0000_0000_0000

  function Inc64(x: Word64): (y: Word64)
    ensures y == (x + 1) % 0x1_0000_0000_0000_0000
    ensures y % 2 != x % 2
  {
    if x == 0xffff_ffff_ffff_ffff then 0 else x + 1
  }

  // ------------------------------------------------------------ clock fan-out

  /** The VDP is clocked on even master ticks. */
  predicate VdpSlot(tick: int) { tick % 2 == 0 }

  /** The CPU, then the PSG, are clocked on master ticks divisible by three. */
  predicate CpuSlot(tick: int) { tick % 3 == 0 }

  /** How many of the n master ticks from `tick` on clock the VDP. */
  function VdpClocks(tick: int, n: nat): (k: nat)
    ensures k <= n
    decreases n
  {
    if n == 0 then 0 else (if VdpSlot(tick) then 1 else 0) + VdpClocks(tick + 1, n - 1)
  }

  /** How many of the n master ticks from `tick` on clock the CPU (and the PSG). */
  function CpuClocks(tick: int, n: nat): (k: nat)
    ensures k <= n
    decreases n
  {
    if n == 0 then 0 else (if CpuSlot(tick) then 1 else 0) + CpuClocks(tick + 1, n - 1)
  }

  lemma {:induction false} ClocksAdd(tick: int, m: nat, n: nat)
    ensures VdpClocks(tick, m + n) == VdpClocks(tick, m) + VdpClocks(tick + m, n)
    ensures CpuClocks(tick, m + n) == CpuClocks(tick, m) + CpuClocks(tick + m, n)
    decreases m
  {
    if m > 0 {
      ClocksAdd(tick + 1, m - 1, n);
    }
  }

  /**
   * The counts in closed form: the even ticks and the multiples of three in
   * `[tick, tick + n)`.
   */
  lemma {:induction false} ClocksCount(tick: int, n: nat)
    ensures VdpClocks(tick, n) == (tick + n + 1) / 2 - (tick + 1) / 2
    ensures CpuClocks(tick, n) == (tick + n + 2) / 3 - (tick + 2) / 3
    decreases n
  {
    if n > 0 {
      ClocksCount(tick + 1, n - 1);
      EvenStep(tick);
      ThirdStep(tick);
    }
  }

  /** Moving the window up by one tick drops one even tick exactly when `t` was even. */
  lemma EvenStep(t: int)
    ensures (t + 2) / 2 - (t + 1) / 2 == if VdpSlot(t) then 1 else 0
  {
    var q := t / 2;
    assert t == 2 * q + t % 2;
    assert (t + 2) / 2 == q + 1;
  }

  /** Moving the window up by one tick drops one multiple of three exactly when `t` was one. */
  lemma ThirdStep(t: int)
    ensures (t + 3) / 3 - (t + 2) / 3 == if CpuSlot(t) then 1 else 0
  {
    var q := t / 3;
    assert t == 3 * q + t % 3;
    assert (t + 3) / 3 == q + 1;
  }

  /** Of any two consecutive master ticks exactly one clocks the VDP. */
  lemma TwoTicks(tick: int)
    ensures VdpClocks(tick, 2) == 1
  {
    assert VdpClocks(tick + 1, 1) == (if VdpSlot(tick + 1) then 1 else 0) + VdpClocks(tick + 2, 0);
  }

  /** Of any three consecutive master ticks exactly one clocks the CPU. */
  lemma ThreeTicks(tick: int)
    ensures CpuClocks(tick, 3) == 1
  {
    assert CpuClocks(tick + 2, 1) == (if CpuSlot(tick + 2) then 1 else 0) + CpuClocks(tick + 3, 0);
    assert CpuClocks(tick + 1, 2) == (if CpuSlot(tick + 1) then 1 else 0) + CpuClocks(tick + 2, 1);
  }

  /** Any six consecutive master ticks clock the VDP three times and the CPU twice. */
  lemma SixTicks(tick: int)
    ensures VdpClocks(tick, 6) == 3 && CpuClocks(tick, 6) == 2
  {
    ClocksAdd(tick, 2, 4);
    ClocksAdd(tick + 2, 2, 2);
    TwoTicks(tick);
    TwoTicks(tick + 2);
    TwoTicks(tick + 4);
    ClocksAdd(tick, 3, 3);
    ThreeTicks(tick);
    ThreeTicks(tick + 3);
  }

  /**
   * Over any whole number of six-tick periods the VDP runs at half and the
   * CPU and the PSG at a third of the master clock.
   */
  lemma {:induction false} ClockRatio(tick: int, k: nat)
    ensures VdpClocks(tick, 6 * k) == 3 * k && CpuClocks(tick, 6 * k) == 2 * k
    decreases k
  {
    if k > 0 {
      ClockRatio(tick, k - 1);
      ClocksAdd(tick, 6 * (k - 1), 6);
      SixTicks(tick + 6 * (k - 1));
    }
  }

  // ------------------------------------------------------------ port decode

  /** The devices `readIO` reaches. */
  datatype InPort = MemoryControlIn | VCounter | HCounter | VdpDataIn | VdpStatus | JoypadA | JoypadB | NoInPort

  /** The devices `writeIO` reaches. */
  datatype OutPort = MemoryControlOut | JoypadControl | SoundOut | VdpDataOut | VdpControlOut | NoOutPort

  /** `readIO`'s switch on `addr & 0xc1`. */
  function InTarget(addr: bv8): (d: InPort)
    ensures d == NoInPort <==> addr & 0xc1 == 0x01
  {
    var m := addr & 0xc1;
    if m == 0x00 then MemoryControlIn
    else if m == 0x40 then VCounter
    else if m == 0x41 then HCounter
    else if m == 0x80 then VdpDataIn
    else if m == 0x81 then VdpStatus
    else if m == 0xc0 then JoypadA
    else if m == 0xc1 then JoypadB
    else NoInPort
  }

  /** `writeIO`'s switch on `addr & 0xc1`. */
  function OutTarget(addr: bv8): (d: OutPort)
    ensures d == NoOutPort <==> addr & 0xc0 == 0xc0
  {
    var m := addr & 0xc1;
    if m == 0x00 then MemoryControlOut
    else if m == 0x01 then JoypadControl
    else if m == 0x40 || m == 0x41 then SoundOut
    else if m == 0x80 then VdpDataOut
    else if m == 0x81 then VdpControlOut
    else NoOutPort
  }

  /** Ports that agree on bits 7, 6 and 0 reach the same device: each port has 32 mirrors. */
  lemma PortMirrors(a: bv8, b: bv8)
    requires a & 0xc1 == b & 0xc1
    ensures InTarget(a) == InTarget(b) && OutTarget(a) == OutTarget(b)
  {
  }

  /** The documented port numbers 0x3E/0x3F, 0x7E/0x7F, 0xBE/0xBF and 0xDC/0xDD. */
  lemma StandardPorts()
    ensures InTarget(0x3e) == MemoryControlIn && OutTarget(0x3e) == MemoryControlOut
    ensures OutTarget(0x3f) == JoypadControl && InTarget(0x3f) == NoInPort
    ensures InTarget(0x7e) == VCounter && InTarget(0x7f) == HCounter
    ensures OutTarget(0x7e) == SoundOut && OutTarget(0x7f) == SoundOut
    ensures InTarget(0xbe) == VdpDataIn && InTarget(0xbf) == VdpStatus
    ensures OutTarget(0xbe) == VdpDataOut && OutTarget(0xbf) == VdpControlOut
    ensures InTarget(0xdc) == JoypadA && InTarget(0xdd) == JoypadB
    ensures OutTarget(0xdc) == NoOutPort && OutTarget(0xdd) == NoOutPort
  {
  }

  /** `SetRegion`'s video standard: PAL (0) in Europe, NTSC (1) in Japan and the US. */
  function Standard(r: Region): (std: bv8)
    ensures std <= 1 && (std == 0 <==> r == EU)
  {
    if r == EU then 0 else 1
  }

  /** What one master clock starts from: the VDP's, the CPU's and the PSG's state, as values. */
  datatype Devices = Devices(video: Video.ClockStart, core: Z80Cpu.Core, counter: bv32,
                             tuning: SoundChip.Tuning, voices: SoundChip.Voices)

  /** The CPU state `k` after the interrupt line has been latched when `irq`. */
  function IrqLatched(k: Z80Cpu.Core, irq: bool): Z80Cpu.Core
  {
    k.(irqLatch := k.irqLatch || irq)
  }

  class Sms {
    const cpu: Z80Cpu.Z80A
    const vdp: Video.Vdp
    const psg: SoundChip.Psg
    const cnt: Joypad.Controller
    const mem: MemoryControl.MemoryManager
    /** The cartridge's Sega mapper, which answers every cartridge access. */
    const cart: SegaMapper.MapperSega
    /** The 8 KiB system RAM. */
    const ram: array<bv8>
    var cycles: Word64
    var cartInserted: bool

    ghost predicate Valid()
      reads cpu, vdp, vdp.frameBuffer, vdp.shifter, vdp.shifter.planes, psg, psg.tone0, psg.tone1,
            psg.tone2, psg.noise, cart
    {
      cpu.Valid() && vdp.Valid() && vdp.ShifterClear() && psg.Valid() && BusValid()
    }

    /** The system RAM is 8 KiB and distinct from the cartridge's arrays. */
    ghost predicate BusValid()
      reads cart
    {
      cart.Valid() && ram.Length == 0x2000 && ram != cart.ram && ram != cart.control
    }

    /**
     * `SMS(region, mapper, filename)` with the Sega mapper: the cartridge is
     * inserted and the region sets the controller and the video standard.
     * The ROM image, the memories the source leaves uninitialised and the
     * CPU's view of the bus are parameters.
     */
    constructor (region: Region, image: seq<bv8>, ram0: seq<bv8>, memory: Z80Decode.Memory, ports: bv8 -> bv8,
                 vram0: seq<bv8>, cram0: seq<bv8>, nameTab: int, sprTab: int, rows: int, mode: bv8)
      requires |ram0| == 0x2000 && |vram0| == VramSize && |cram0| == CramSize
      requires 0 <= nameTab <= 0x3800 && 0 <= sprTab <= 0x3f00 && 0 < rows <= 32
      ensures Valid() && cycles == 0 && cartInserted
      ensures ram[..] == ram0 && cart.rom == image && cart.control[..] == [0x00, 0x00, 0x01, 0x02]
      ensures vdp.videoStd == Standard(region) && cnt.region == region && mem.SystemRamEnabled()
    {
      var c := new Z80Cpu.Z80A(memory, ports);
      var v := NewVdp(Standard(region), vram0, cram0, nameTab, sprTab, rows, mode);
      var p := NewPsg();
      var j := new Joypad.Controller(region);
      var m := new MemoryControl.MemoryManager();
      var mapper := NewCartridge(image);
      var r := NewRam(ram0);
      cpu, vdp, psg, cnt, mem, cart, ram := c, v, p, j, m, mapper, r;
      cycles := 0;
      cartInserted := true;
    }

    /** `VDP()` and `SetVideoStandard(std)`, seen through what the system needs of it. */
    static method NewVdp(std: bv8, vram0: seq<bv8>, cram0: seq<bv8>, nameTab: int, sprTab: int, rows: int, mode: bv8)
      returns (v: Video.Vdp)
      requires std <= 1 && |vram0| == VramSize && |cram0| == CramSize
      requires 0 <= nameTab <= 0x3800 && 0 <= sprTab <= 0x3f00 && 0 < rows <= 32
      ensures v.Valid() && v.ShifterClear() && v.videoStd == std
    {
      v := new Video.Vdp(std, vram0, cram0, nameTab, sprTab, rows, mode);
    }

    /** A cartridge of `image` behind a fresh Sega mapper, with 32 KiB of cartridge RAM. */
    static method NewCartridge(image: seq<bv8>) returns (mapper: SegaMapper.MapperSega)
      ensures mapper.Valid() && fresh(mapper.ram) && fresh(mapper.control)
      ensures mapper.rom == image && mapper.control[..] == [0x00, 0x00, 0x01, 0x02]
    {
      var cartRam := new bv8[0x8000];
      mapper := new SegaMapper.MapperSega(image, cartRam);
    }

    /** `PSG()`, with its noise channel's shift toggle. */
    static method NewPsg() returns (p: SoundChip.Psg)
      ensures p.Valid() && p.clockCounter == 0
    {
      var shared := new NoiseGenerator.ShiftToggle();
      p := new SoundChip.Psg(shared);
    }

    /** A fresh system RAM holding `ram0`. */
    static method NewRam(ram0: seq<bv8>) returns (r: array<bv8>)
      requires |ram0| == 0x2000
      ensures fresh(r) && r[..] == ram0
    {
      r := new bv8[0x2000](i requires 0 <= i < 0x2000 => ram0[i]);
      assert r[..] == ram0;
    }

    // ---------------------------------------------------------------- memory

    /**
     * `readMem`: below 0xC000 the cartridge answers (a missing cartridge
     * would read the BIOS, which is never loaded). Above, the system RAM
     * answers while it is enabled, at `addr & 0x1fff`; otherwise the
     * cartridge's slot 3, which leaves the 0 the read starts with. None
     * stands for a read past the loaded ROM image.
     */
    function ReadMem(addr: bv16): (r: Option<bv8>)
      requires BusValid()
      reads this, mem, ram, cart, cart.control, cart.ram
      ensures addr <= 0xbfff ==> r == (if cartInserted then cart.ReadMap(addr, 0) else None)
      ensures addr >= 0xc000 && mem.SystemRamEnabled() ==> r == Some(ram[(addr & 0x1fff) as int])
      ensures addr >= 0xc000 && !mem.SystemRamEnabled() ==> r == Some(0)
    {
      if addr <= 0xbfff then
        if cartInserted then cart.ReadMap(addr, 0) else None
      else if mem.SystemRamEnabled() then Some(ram[(addr & 0x1fff) as int])
      else if cartInserted then
        SegaMapper.UpperSlots(cart, addr, 0);
        cart.ReadMap(addr, 0)
      else Some(0)
    }

    /**
     * `writeMem`: slot 2 goes to the cartridge, 0xC000..0xFFFF to the system
     * RAM while it is enabled and to the cartridge otherwise, and
     * 0xFFFC..0xFFFF to the mapper as well. Nothing below 0x8000 is ever
     * written, and since the cartridge RAM is never enabled the only
     * cartridge state a write changes is a mapper control register.
     */
    method WriteMem(addr: bv16, data: bv8)
      requires Valid()
      modifies ram, cart.control, cart.ram
      ensures Valid()
      ensures ram[..] == if addr >= 0xc000 && mem.SystemRamEnabled()
                         then old(ram[..])[(addr & 0x1fff) as int := data] else old(ram[..])
      ensures cart.control[..] == if cartInserted && addr >= 0xfffc
                                  then old(cart.control[..])[(addr - 0xfffc) as int := data]
                                  else old(cart.control[..])
      ensures cart.ram[..] == old(cart.ram[..])
      ensures addr >= 0xc000 && mem.SystemRamEnabled() ==> ReadMem(addr) == Some(data)
    {
      var ok: bool;
      if 0x8000 <= addr <= 0xbfff && cartInserted {
        ok := cart.WriteMap(addr, data);
      }
      if addr >= 0xc000 {
        if mem.SystemRamEnabled() {
          ram[addr & 0x1fff] := data;
        } else if cartInserted {
          ok := cart.WriteMap(addr, data);
        }
      }
      if addr >= 0xfffc && cartInserted {
        ok := cart.WriteMap(addr, data);
      }
    }

    // ---------------------------------------------------------------- ports

    /** `readIO`: the device `InTarget` names is asked with the masked port; port 0x01 and its mirrors read 0. */
    method ReadIO(addr: bv8) returns (data: bv8)
      requires Valid()
      modifies vdp`firstByteRecv, vdp`readBuf, vdp`addrReg, vdp`status
      ensures Valid()
      ensures match InTarget(addr)
              case MemoryControlIn => data == mem.reg
              case VCounter => data == VCountByte(vdp.vCount, vdp.scanlineNumber, vdp.videoStd, vdp.activePeriod) as bv8
              case HCounter => data == HCountByte(vdp.hCount) as bv8
              case VdpDataIn =>
                data == old(vdp.readBuf) && vdp.readBuf == vdp.vram[old(vdp.addrReg)] &&
                vdp.addrReg == Video.Next(old(vdp.addrReg))
              case VdpStatus => data == old(vdp.status) && vdp.status == StatusAfterRead(old(vdp.status))
              case JoypadA => data == cnt.regDC
              case JoypadB => data == cnt.regDD
              case NoInPort => data == 0
      ensures InTarget(addr) != VdpDataIn ==> vdp.readBuf == old(vdp.readBuf) && vdp.addrReg == old(vdp.addrReg)
      ensures InTarget(addr) != VdpStatus ==> vdp.status == old(vdp.status)
    {
      var m := addr & 0xc1;
      data := 0;
      match InTarget(addr)
      case MemoryControlIn =>
        data := mem.Read(m);
      case VCounter =>
        var ok;
        ok, data := vdp.Read(m, data);
      case HCounter =>
        var ok;
        ok, data := vdp.Read(m, data);
      case VdpDataIn =>
        var ok;
        ok, data := vdp.Read(m, data);
      case VdpStatus =>
        var ok;
        ok, data := vdp.Read(m, data);
      case JoypadA =>
        data := cnt.Read(m, data);
      case JoypadB =>
        data := cnt.Read(m, data);
      case NoInPort =>
    }

    /** `writeIO`: the device `OutTarget` names is written with the masked port; 0xC0..0xFF are ignored. */
    method WriteIO(addr: bv8, data: bv8)
      requires Valid()
      modifies mem, cnt
      modifies psg`latchedChannel, psg`latchedMode, psg.tone0`frequency, psg.tone1`frequency, psg.tone2`frequency,
               psg.tone0`attenuation, psg.tone1`attenuation, psg.tone2`attenuation, psg.noise`tone2Freq,
               psg.noise`nType, psg.noise`frequency, psg.noise`shiftReg, psg.noise`attenuation
      modifies vdp`firstByteRecv, vdp`readBuf, vdp`addrReg, vdp.vram, vdp.cram,
               vdp`commandWord, vdp`codeReg, vdp`regs, vdp`sprAttrTabAddr, vdp`nameTabAddr,
               vdp`videoMode, vdp`activePeriod, vdp`additionalScan, vdp`rowNumber
      ensures Valid()
      ensures OutTarget(addr) == MemoryControlOut ==> mem.reg == data
      ensures OutTarget(addr) != MemoryControlOut ==> unchanged(mem)
      ensures OutTarget(addr) == JoypadControl ==>
                cnt.reg3F == data && cnt.regDD == (old(cnt.regDD) & 0x3f) + Joypad.ThBits(data, cnt.region)
      ensures OutTarget(addr) != JoypadControl ==> unchanged(cnt)
      ensures psg.TuningOf() ==
                if OutTarget(addr) == SoundOut then SoundChip.Retuned(data, old(psg.TuningOf())) else old(psg.TuningOf())
      ensures OutTarget(addr) == VdpDataOut ==>
                vdp.DataWritten(data, old(vdp.vram[..]), old(vdp.cram[..]), old(vdp.codeReg), old(vdp.addrReg), old(vdp.readBuf))
      ensures OutTarget(addr) == VdpControlOut ==>
                vdp.ControlWritten(data, old(vdp.firstByteRecv), old(vdp.commandWord), old(vdp.codeReg), old(vdp.readBuf),
                                   old(vdp.regs))
      ensures OutTarget(addr) != VdpDataOut ==> vdp.vram[..] == old(vdp.vram[..]) && vdp.cram[..] == old(vdp.cram[..])
      ensures OutTarget(addr) != VdpControlOut ==> vdp.SetupOf() == old(vdp.SetupOf())
      ensures OutTarget(addr) != VdpDataOut && OutTarget(addr) != VdpControlOut ==>
                vdp.addrReg == old(vdp.addrReg) && vdp.readBuf == old(vdp.readBuf) &&
                vdp.firstByteRecv == old(vdp.firstByteRecv)
    {
      var target := OutTarget(addr);
      if target == MemoryControlOut || target == JoypadControl {
        WriteBusPort(addr, data);
      } else if target == SoundOut {
        WritePsgPort(addr, data);
      } else if target == VdpDataOut || target == VdpControlOut {
        WriteVdpPort(addr, data);
      }
    }

    /**
     * `writeIO` to the memory control or the joypad control port: that
     * register takes `data`, and the other devices are untouched.
     */
    method WriteBusPort(addr: bv8, data: bv8)
      requires Valid() && (OutTarget(addr) == MemoryControlOut || OutTarget(addr) == JoypadControl)
      modifies mem, cnt
      ensures Valid()
      ensures unchanged(vdp, vdp.vram, vdp.cram) && unchanged(psg, psg.tone0, psg.tone1, psg.tone2, psg.noise)
      ensures OutTarget(addr) == MemoryControlOut ==> mem.reg == data && unchanged(cnt)
      ensures OutTarget(addr) == JoypadControl ==>
                cnt.reg3F == data && cnt.regDD == (old(cnt.regDD) & 0x3f) + Joypad.ThBits(data, cnt.region) &&
                unchanged(mem)
    {
      var ok;
      if OutTarget(addr) == MemoryControlOut {
        ok := mem.Write(addr & 0xc1, data);
      } else {
        ok := cnt.Write(addr & 0xc1, data);
      }
    }

    /** `writeIO` to the PSG: its register file is retuned by `data`, and the other devices are untouched. */
    method WritePsgPort(addr: bv8, data: bv8)
      requires Valid() && OutTarget(addr) == SoundOut
      modifies psg`latchedChannel, psg`latchedMode, psg.tone0`frequency, psg.tone1`frequency, psg.tone2`frequency,
               psg.tone0`attenuation, psg.tone1`attenuation, psg.tone2`attenuation, psg.noise`tone2Freq,
               psg.noise`nType, psg.noise`frequency, psg.noise`shiftReg, psg.noise`attenuation
      ensures Valid()
      ensures psg.TuningOf() == SoundChip.Retuned(data, old(psg.TuningOf()))
      ensures unchanged(vdp, vdp.vram, vdp.cram) && unchanged(mem, cnt)
    {
      var ok := psg.Write(addr & 0xc1, data);
    }

    /**
     * `writeIO` to a VDP port: the VDP sees the data or control port write,
     * and the other devices are untouched.
     */
    method WriteVdpPort(addr: bv8, data: bv8)
      requires Valid() && (OutTarget(addr) == VdpDataOut || OutTarget(addr) == VdpControlOut)
      modifies vdp`firstByteRecv, vdp`readBuf, vdp`addrReg, vdp.vram, vdp.cram,
               vdp`commandWord, vdp`codeReg, vdp`regs, vdp`sprAttrTabAddr, vdp`nameTabAddr,
               vdp`videoMode, vdp`activePeriod, vdp`additionalScan, vdp`rowNumber
      ensures Valid()
      ensures unchanged(psg, psg.tone0, psg.tone1, psg.tone2, psg.noise) && unchanged(mem, cnt)
      ensures OutTarget(addr) == VdpDataOut ==>
                vdp.DataWritten(data, old(vdp.vram[..]), old(vdp.cram[..]), old(vdp.codeReg), old(vdp.addrReg), old(vdp.readBuf))
      ensures OutTarget(addr) == VdpControlOut ==>
                vdp.ControlWritten(data, old(vdp.firstByteRecv), old(vdp.commandWord), old(vdp.codeReg), old(vdp.readBuf),
                                   old(vdp.regs))
      ensures OutTarget(addr) != VdpDataOut ==> vdp.vram[..] == old(vdp.vram[..]) && vdp.cram[..] == old(vdp.cram[..])
      ensures OutTarget(addr) != VdpControlOut ==> vdp.SetupOf() == old(vdp.SetupOf())
    {
      var ok := vdp.Write(addr & 0xc1, data);
    }

    // ---------------------------------------------------------------- clock

    /**
     * `clock`: on even ticks the VDP runs one clock and an interrupt it
     * requests is latched by the CPU; then on ticks divisible by three the
     * CPU and the PSG each run one clock; then the tick counter steps. An
     * interrupt the VDP raises is thus already latched when the CPU runs on
     * the same tick. `d` is the devices' state at the call.
     */
    method Clock(ghost d: Devices) returns (ok: bool, ghost raised: bool)
      requires Valid() && d == DevicesOf()
      modifies this`cycles
      modifies vdp.frameBuffer.buffer, vdp.shifter.planes, vdp.sprBuffer, vdp`sprCounter, vdp`status,
               vdp`hCount, vdp`vCount, vdp`frameComplete, vdp`frameCounter, vdp`rasterCounter, vdp`cycleCounter
      modifies cpu, psg, psg.tone0, psg.tone1, psg.tone2, psg.noise, psg.noise.shift
      ensures Valid() && ok
      ensures cycles == Inc64(old(cycles))
      ensures Clocked(old(cycles), d, raised)
    {
      var tick := cycles;
      cycles := Inc64(tick);
      ok := true;
      raised := ClockDevices(tick, d);
    }

    /** The devices' state one master clock works on, as values. */
    ghost function DevicesOf(): Devices
      requires |vdp.regs| == Video.RegisterCount
      reads vdp, vdp.vram, vdp.cram, vdp.frameBuffer, vdp.frameBuffer.buffer
      reads cpu, psg, psg.tone0, psg.tone1, psg.tone2, psg.noise, psg.noise.shift
    {
      Devices(vdp.StartOf(), cpu.CoreOf(), psg.clockCounter, psg.TuningOf(), psg.VoicesOf())
    }

    /**
     * The devices after master tick `tick` from `d`, the VDP having asked
     * for an interrupt exactly when `raised`: the VDP has run one clock on
     * an even tick and is held otherwise; the CPU has latched the request
     * and, with the PSG, run one clock on a tick divisible by three, and
     * both are held otherwise.
     */
    ghost predicate Clocked(tick: int, d: Devices, raised: bool)
      reads vdp, vdp.frameBuffer, vdp.frameBuffer.buffer, vdp.shifter, vdp.shifter.planes
      reads cpu, psg, psg.tone0, psg.tone1, psg.tone2, psg.noise, psg.noise.shift
    {
      VdpClocked(tick, d.video, raised) && CpuClocked(tick, d, raised)
    }

    /** The VDP, still valid, after master tick `tick` from `c`, asking for an interrupt exactly when `irq`. */
    ghost predicate VdpClocked(tick: int, c: Video.ClockStart, irq: bool)
      reads vdp, vdp.frameBuffer, vdp.frameBuffer.buffer, vdp.shifter, vdp.shifter.planes
    {
      && vdp.Valid() && vdp.ShifterClear()
      && (VdpSlot(tick) ==> vdp.ClockedFrom(c, irq))
      && (!VdpSlot(tick) ==> vdp.HeldFrom(c) && !irq)
    }

    /** The CPU and the PSG, valid and in the state `d` holds for them. */
    ghost predicate CpuReady(d: Devices)
      reads cpu, psg, psg.tone0, psg.tone1, psg.tone2, psg.noise, psg.noise.shift
    {
      && cpu.Valid() && psg.Valid()
      && d.core == cpu.CoreOf() && d.counter == psg.clockCounter
      && d.tuning == psg.TuningOf() && d.voices == psg.VoicesOf()
    }

    /**
     * The CPU and the PSG, still valid, after master tick `tick` from `d`,
     * with an interrupt request `irq` latched first.
     */
    ghost predicate CpuClocked(tick: int, d: Devices, irq: bool)
      reads cpu, psg, psg.tone0, psg.tone1, psg.tone2, psg.noise, psg.noise.shift
    {
      && cpu.Valid() && psg.Valid()
      && (CpuSlot(tick) ==>
            cpu.ClockedFrom(IrqLatched(d.core, irq)) && psg.ClockedFrom(d.counter, d.tuning, d.voices))
      && (!CpuSlot(tick) ==>
            cpu.CoreOf() == IrqLatched(d.core, irq) && psg.HeldFrom(d.counter, d.tuning, d.voices))
    }

    /** The device half of `clock` on master tick `tick`: the VDP phase, then the CPU phase. */
    method ClockDevices(tick: int, ghost d: Devices) returns (ghost raised: bool)
      requires vdp.Valid() && vdp.ShifterClear() && cpu.Valid() && psg.Valid() && d == DevicesOf()
      modifies vdp.frameBuffer.buffer, vdp.shifter.planes, vdp.sprBuffer, vdp`sprCounter, vdp`status,
               vdp`hCount, vdp`vCount, vdp`frameComplete, vdp`frameCounter, vdp`rasterCounter, vdp`cycleCounter
      modifies cpu, psg, psg.tone0, psg.tone1, psg.tone2, psg.noise, psg.noise.shift
      ensures Clocked(tick, d, raised)
    {
      var irq := VdpPhase(tick, d);
      raised := irq;
      CpuPhase(tick, irq, d);
    }

    /** The VDP half of `clock` on master tick `tick`: its clock on even ticks and the request it makes. */
    method VdpPhase(tick: int, ghost d: Devices) returns (irq: bool)
      requires vdp.Valid() && vdp.ShifterClear() && cpu.Valid() && psg.Valid() && d == DevicesOf()
      modifies vdp.frameBuffer.buffer, vdp.shifter.planes, vdp.sprBuffer, vdp`sprCounter, vdp`status,
               vdp`hCount, vdp`vCount, vdp`frameComplete, vdp`frameCounter, vdp`rasterCounter, vdp`cycleCounter
      ensures VdpClocked(tick, d.video, irq) && CpuReady(d)
    {
      irq := false;
      if tick % 2 == 0 {
        irq := RunVdp();
      }
    }

    /** One VDP clock. */
    method RunVdp() returns (irq: bool)
      requires vdp.Valid() && vdp.ShifterClear()
      modifies vdp.frameBuffer.buffer, vdp.shifter.planes, vdp.sprBuffer, vdp`sprCounter, vdp`status,
               vdp`hCount, vdp`vCount, vdp`frameComplete, vdp`frameCounter, vdp`rasterCounter, vdp`cycleCounter
      ensures vdp.Valid() && vdp.ShifterClear()
      ensures vdp.ClockedFrom(old(vdp.StartOf()), irq)
    {
      irq := vdp.Clock();
    }

    /**
     * The CPU half of `clock` on master tick `tick`: a request `irq` from
     * the VDP is latched, then on ticks divisible by three the CPU and the
     * PSG run one clock each. `d` holds the CPU's and the PSG's state at the call.
     */
    method CpuPhase(tick: int, irq: bool, ghost d: Devices)
      requires CpuReady(d)
      modifies cpu, psg, psg.tone0, psg.tone1, psg.tone2, psg.noise, psg.noise.shift
      ensures CpuClocked(tick, d, irq)
      ensures unchanged(vdp, vdp.frameBuffer, vdp.frameBuffer.buffer, vdp.shifter, vdp.shifter.planes)
    {
      LatchIrq(irq, d.core);
      if tick % 3 == 0 {
        RunCpu(IrqLatched(d.core, irq));
        RunPsg(d.counter, d.tuning, d.voices);
      }
    }

    /** A request `irq` from the VDP is latched by the CPU, whose state was `k`. */
    method LatchIrq(irq: bool, ghost k: Z80Cpu.Core)
      requires k == cpu.CoreOf()
      modifies cpu`irqLatch
      ensures cpu.CoreOf() == IrqLatched(k, irq)
    {
      if irq {
        var ok := cpu.Irq();
      }
    }

    /** One CPU clock from `k`; the other devices are untouched. */
    method RunCpu(ghost k: Z80Cpu.Core)
      requires cpu.Valid() && k == cpu.CoreOf()
      modifies cpu
      ensures cpu.Valid() && cpu.ClockedFrom(k)
      ensures unchanged(vdp, vdp.frameBuffer, vdp.frameBuffer.buffer, vdp.shifter, vdp.shifter.planes)
      ensures unchanged(psg, psg.tone0, psg.tone1, psg.tone2, psg.noise, psg.noise.shift)
    {
      var ok := cpu.Clock();
    }

    /** One PSG clock; the other devices are untouched. */
    method RunPsg(ghost k: bv32, ghost t: SoundChip.Tuning, ghost v: SoundChip.Voices)
      requires psg.Valid() && k == psg.clockCounter && t == psg.TuningOf() && v == psg.VoicesOf()
      modifies psg, psg.tone0, psg.tone1, psg.tone2, psg.noise, psg.noise.shift
      ensures psg.Valid() && psg.ClockedFrom(k, t, v)
      ensures unchanged(vdp, vdp.frameBuffer, vdp.frameBuffer.buffer, vdp.shifter, vdp.shifter.planes)
      ensures unchanged(cpu)
    {
      var ok := psg.Clock();
    }

    /**
     * `NewFrame`: master clocks, at least one, until the VDP flags the
     * frame complete, then the flag is cleared. From an incomplete frame
     * this ends on the clock that wraps the last line: the beam is at
     * column 1 of line 0 and the frame has been counted once.
     */
    method NewFrame() returns (ok: bool)
      requires Valid()
      modifies this`cycles
      modifies vdp.frameBuffer.buffer, vdp.shifter.planes, vdp.sprBuffer, vdp`sprCounter, vdp`status,
               vdp`hCount, vdp`vCount, vdp`frameComplete, vdp`frameCounter, vdp`rasterCounter, vdp`cycleCounter
      modifies cpu
      modifies psg, psg.tone0, psg.tone1, psg.tone2, psg.noise, psg.noise.shift
      ensures Valid() && ok && !vdp.frameComplete
      ensures !old(vdp.frameComplete) ==>
                vdp.hCount == 1 && vdp.vCount == 0 && vdp.frameCounter == VdpTiming.Inc32(old(vdp.frameCounter))
    {
      RunFrame();
      vdp.frameComplete := false;
      ok := true;
    }

    /**
     * The clocks of `NewFrame`: at least one, and then more until the VDP
     * flags the frame complete.
     */
    method RunFrame()
      requires Valid()
      modifies this`cycles
      modifies vdp.frameBuffer.buffer, vdp.shifter.planes, vdp.sprBuffer, vdp`sprCounter, vdp`status,
               vdp`hCount, vdp`vCount, vdp`frameComplete, vdp`frameCounter, vdp`rasterCounter, vdp`cycleCounter
      modifies cpu
      modifies psg, psg.tone0, psg.tone1, psg.tone2, psg.noise, psg.noise.shift
      ensures Valid() && vdp.frameComplete
      ensures !old(vdp.frameComplete) ==>
                vdp.hCount == 1 && vdp.vCount == 0 && vdp.frameCounter == VdpTiming.Inc32(old(vdp.frameCounter))
    {
      ghost var frames0 := vdp.frameCounter;
      ghost var done0 := vdp.frameComplete;
      Step(done0, frames0);
      while !vdp.frameComplete
        invariant Valid() && Progress(done0, frames0)
        decreases Distance()
      {
        Step(done0, frames0);
      }
    }

    /**
     * Master ticks left until the clock that completes the frame: two per
     * VDP clock, one less when the next tick is a VDP tick.
     */
    ghost function Distance(): int
      reads this, vdp
    {
      if vdp.frameComplete then 0
      else 2 * VdpTiming.Remaining(vdp.BeamOf(), vdp.scanlineNumber) - (if VdpSlot(cycles) then 1 else 0)
    }

    /**
     * While the frame is incomplete its count is the one at the start and
     * the beam is inside the frame; once complete, having started
     * incomplete, the beam is at the start of the next frame and the frame
     * has been counted once.
     */
    ghost predicate Progress(done0: bool, frames0: VdpTiming.Word32)
      reads this, vdp
    {
      && (!vdp.frameComplete ==>
            !done0 && vdp.frameCounter == frames0 && VdpTiming.InFrame(vdp.BeamOf(), vdp.scanlineNumber))
      && (vdp.frameComplete && !done0 ==>
            vdp.hCount == 1 && vdp.vCount == 0 && vdp.frameCounter == VdpTiming.Inc32(frames0))
    }

    /** One master clock of the frame loop, bringing the frame's end nearer while it is incomplete. */
    method Step(ghost done0: bool, ghost frames0: VdpTiming.Word32)
      requires Valid()
      requires (done0 == vdp.frameComplete && frames0 == vdp.frameCounter) ||
               (Progress(done0, frames0) && !vdp.frameComplete)
      modifies this`cycles
      modifies vdp.frameBuffer.buffer, vdp.shifter.planes, vdp.sprBuffer, vdp`sprCounter, vdp`status,
               vdp`hCount, vdp`vCount, vdp`frameComplete, vdp`frameCounter, vdp`rasterCounter, vdp`cycleCounter
      modifies cpu
      modifies psg, psg.tone0, psg.tone1, psg.tone2, psg.noise, psg.noise.shift
      ensures Valid() && Progress(done0, frames0)
      ensures !old(vdp.frameComplete) ==> 0 <= Distance() < old(Distance())
    {
      ghost var b := vdp.BeamOf();
      ghost var g := vdp.ScreenOf();
      VdpTiming.FrameEnd(b, g);
      VdpTiming.TickRange(b, g);
      ClockBeam(b, g);
    }

    /** One master clock as the frame loop sees it: the beam moves as `Tick` on a VDP tick and stays otherwise. */
    method ClockBeam(ghost b: VdpTiming.Beam, ghost g: VdpTiming.Screen)
      requires Valid() && b == vdp.BeamOf() && g == vdp.ScreenOf()
      modifies this`cycles
      modifies vdp.frameBuffer.buffer, vdp.shifter.planes, vdp.sprBuffer, vdp`sprCounter, vdp`status,
               vdp`hCount, vdp`vCount, vdp`frameComplete, vdp`frameCounter, vdp`rasterCounter, vdp`cycleCounter
      modifies cpu
      modifies psg, psg.tone0, psg.tone1, psg.tone2, psg.noise, psg.noise.shift
      ensures Valid() && cycles == Inc64(old(cycles))
      ensures vdp.BeamOf() == if VdpSlot(old(cycles)) then VdpTiming.Tick(b, g).0 else b
    {
      var ok, raised := Clock(DevicesOf());
    }

    // ---------------------------------------------------------------- reset

    /** `reset`: the master clock restarts and the VDP, the CPU and the PSG are reset. */
    method Reset() returns (ok: bool)
      requires Valid()
      modifies this`cycles
      modifies vdp`hCount, vdp`vCount, vdp`frameCounter, vdp`cycleCounter, vdp`regs, vdp`status,
               vdp`commandWord, vdp`codeReg, vdp`addrReg, vdp`readBuf, vdp`frameComplete,
               vdp`firstByteRecv, vdp`rasterCounter, vdp`activePeriod
      modifies cpu`reg, cpu`halt, cpu`iff1, cpu`iff2, cpu`intmode, cpu`nmiLatch, cpu`irqLatch, cpu`cycleCounter
      modifies psg`clockCounter
      ensures Valid() && ok && cycles == 0
      ensures vdp.ResetDone()
      ensures cpu.reg == Z80Regs.Regs(0xffff, 0, 0, 0, 0xffff, 0, 0, 0, 0, 0, 0, 0xffff, 0, old(cpu.reg).wz)
      ensures !cpu.iff1 && !cpu.iff2 && !cpu.nmiLatch && !cpu.irqLatch && !cpu.halt && cpu.intmode == 0
      ensures cpu.cycleCounter == 0
      ensures psg.clockCounter == 0
    {
      cycles := 0;
      ok := ResetDevices();
    }

    /** The device half of `reset`. */
    method ResetDevices() returns (ok: bool)
      requires Valid()
      modifies vdp`hCount, vdp`vCount, vdp`frameCounter, vdp`cycleCounter, vdp`regs, vdp`status,
               vdp`commandWord, vdp`codeReg, vdp`addrReg, vdp`readBuf, vdp`frameComplete,
               vdp`firstByteRecv, vdp`rasterCounter, vdp`activePeriod
      modifies cpu`reg, cpu`halt, cpu`iff1, cpu`iff2, cpu`intmode, cpu`nmiLatch, cpu`irqLatch, cpu`cycleCounter
      modifies psg`clockCounter
      ensures Valid() && ok
      ensures vdp.ResetDone()
      ensures cpu.reg == Z80Regs.Regs(0xffff, 0, 0, 0, 0xffff, 0, 0, 0, 0, 0, 0, 0xffff, 0, old(cpu.reg).wz)
      ensures !cpu.iff1 && !cpu.iff2 && !cpu.nmiLatch && !cpu.irqLatch && !cpu.halt && cpu.intmode == 0
      ensures cpu.cycleCounter == 0
      ensures psg.clockCounter == 0
    {
      ok := vdp.Reset();
      ok := cpu.Reset();
      ok := psg.Reset();
    }

    /** `reset(org)`: `reset`, then the CPU starts at `org`. */
    method ResetAt(org: bv16) returns (ok: bool)
      requires Valid()
      modifies this`cycles
      modifies vdp`hCount, vdp`vCount, vdp`frameCounter, vdp`cycleCounter, vdp`regs, vdp`status,
               vdp`commandWord, vdp`codeReg, vdp`addrReg, vdp`readBuf, vdp`frameComplete,
               vdp`firstByteRecv, vdp`rasterCounter, vdp`activePeriod
      modifies cpu`reg, cpu`halt, cpu`iff1, cpu`iff2, cpu`intmode, cpu`nmiLatch, cpu`irqLatch, cpu`cycleCounter
      modifies psg`clockCounter
      ensures Valid() && ok && cycles == 0
      ensures vdp.ResetDone()
      ensures cpu.reg == Z80Regs.Regs(0xffff, 0, 0, 0, 0xffff, 0, 0, 0, 0, 0, 0, 0xffff, org, old(cpu.reg).wz)
      ensures !cpu.iff1 && !cpu.iff2 && !cpu.nmiLatch && !cpu.irqLatch && !cpu.halt && cpu.intmode == 0
      ensures cpu.cycleCounter == 0
      ensures psg.clockCounter == 0
    {
      ok := Reset();
      cpu.reg := cpu.reg.(pc := org);
    }
  }

  /** The system RAM answers at 0xC000..0xFFFF in two mirrored halves: `addr` and `addr ^ 0x2000` read alike. */
  lemma RamMirror(s: Sms, addr: bv16)
    requires s.BusValid() && addr >= 0xc000
    ensures s.ReadMem(addr) == s.ReadMem(addr ^ 0x2000)
  {
    assert (addr ^ 0x2000) & 0x1fff == addr & 0x1fff;
  }
}
