# smsemu core in Dafny

A model of the Sega Master System emulator **smsemu**, with proofs about it.
The model covers the system bus and clock, the Z80 CPU interpreter, the video
display processor (VDP), the sound chip (PSG) with its tone and noise
generators, the Sega memory mapper, the memory-control and joypad ports, and
the small utilities those devices are built on: the bitplane shifter, the
circular sample buffer, the framebuffer and the command-line parser.

Each source file is modelled in its own form. Objects whose methods update
their fields are Dafny classes whose methods state the whole new state, except
on the instruction-dispatch path: the Z80's `Clock`, `NextInstruction`,
`Dispatch` and `Execute` methods, and the master-clock methods that run the
CPU, state the decode and the charged cycles but not each handler's effect, as
"## Left out" lists. Pure helpers become functions, and lemmas state what the
code promises about them.

| Dafny file | module | models |
|---|---|---|
| `console.dfy` | `Console` | shared `Option` and `Region` |
| `bitplane_shifter.dfy` | `Bitplanes` | `src/utils/bitplaneshifter.cpp` |
| `circular_buffer.dfy` | `RingBuffer` | `src/utils/circularbuffer.cpp` |
| `command_line.dfy` | `CommandLine` | `src/utils/commandline.cpp` |
| `framebuffer.dfy` | `Frames` | `src/video/framebuffer.cpp` |
| `controller.dfy` | `Joypad` | `src/controller/controller.cpp` |
| `mapper_sega.dfy` | `SegaMapper` | `src/memory/MapperSega.cpp` |
| `memory_manager.dfy` | `MemoryControl` | `src/memory/memorymanager.cpp` |
| `tone_gen.dfy` | `ToneGenerator` | `src/audio/tonegen.cpp` |
| `noise_gen.dfy` | `NoiseGenerator` | `src/audio/noisegen.cpp` |
| `psg.dfy` | `SoundChip` | `src/audio/psg.cpp` |
| `vdp_regs.dfy` | `VdpRegs` | register bitfields and helpers of `src/video/vdp.h`, `src/video/vdp.cpp` |
| `vdp_timing.dfy` | `VdpTiming` | the counter walk of `VDP::clock` |
| `vdp_render.dfy` | `VdpRender` | specification functions of background and sprite rendering |
| `vdp.dfy` | `Video` | the `VDP` object, `src/video/vdp.cpp` |
| `z80_regs.dfy` | `Z80Regs` | register pairs and flags, `src/cpu/z80a.h` |
| `z80_flags.dfy` | `Z80Flags` | `isP`, `isC`, `isB`, `isO`, `isU` and the 8-bit ALU |
| `z80_table.dfy` | `Z80Table` | the 1792-entry instruction table of `Z80A::Z80A` |
| `z80_decode.dfy` | `Z80Decode` | decode, operand selection, single-handler flags, cycle choice |
| `z80_cpu.dfy` | `Z80Cpu` | the `Z80A` object: reset, interrupts, `clock` and every handler |
| `sms.dfy` | `MasterSystem` | the `SMS` bus object, `src/SMS.cpp` |

Fixed-width integers take one of three forms. Bit-vectors (`bv8`, `bv16`,
`bv32`) hold the Z80 registers and the CPU's `cycles` and cycle counter, the
VDP's registers, command word and read buffer, and the PSG's clock counter,
attenuations and noise shift register. The other wrapping counters are bounded
integers whose wrap is written out as a function: the 64-bit master counter
(subset type `MasterSystem.Word64`, stepped by `Inc64`), the VDP frame and
cycle counters (`VdpTiming.Word32`, `Inc32`), the raster counter
(`VdpTiming.Byte`, `Dec8`), and the `uint16_t` tone and noise down-counters,
integers below 0x10000 by the class invariant that wrap from 0 to 0xFFFF
through `ToneGenerator.Dec16`. Only values the code
keeps in range by hand are plain integers, with their range stated in the class
invariant: the VDP's 14-bit address register and beam counters, the PSG's
latched channel and mode, and the tone periods.
Fields the source leaves uninitialised become constructor parameters.

Several behaviours of the code as written are stated as lemmas rather than
corrected. The model follows the code, not the intent, in each of them:

- The carry helpers `isC`/`isB` lose the carry when the operand plus the
  carry-in wraps to zero inside the mask: `Z80Flags.AdcLosesCarry`,
  `Z80Flags.SbcLosesBorrow`, `Z80Decode.Adc16LosesCarry`.
- `RET cc` always reports `true`, so a return that is not taken is charged
  the cycles of a taken one: `Z80Decode.RetNzChargedAsTaken`.
- The mapper tests `(control & 0x08) == 1`, which can never hold, so cartridge
  RAM is never mapped: `SegaMapper.CartRamNeverEnabled`.
- The `uint64_t` master counter wraps at 2^64, and 2^64 ≡ 1 (mod 3), so at the
  wrap the CPU phase slips: `MasterSystem.Inc64` and the `Sms.Clock` contract.
- A rejected maskable interrupt (IFF1 clear or a mode other than 1) still
  leaves `cycles--` to run on 0, which wraps to 255 (`Z80Cpu.Z80A.Clock`).
- Reading I/O port 0x01 with no port decoded returns 0
  (`MasterSystem.InTarget`).
- The sized `CircularBuffer` constructor leaves the length uninitialised, so
  the model takes it as a parameter (`RingBuffer.CircularBuffer.constructor`).
- A `writeMem` at 0xFFFC and above with system RAM disabled reaches the
  mapper twice, which stores the same control value twice
  (`MasterSystem.Sms.WriteMem`).

## Model

| member | source | states |
|---|---|---|
| `Bitplanes.ColorSnoc` | src/utils/bitplaneshifter.cpp:36-40 | the colour loop adds plane i's bit 7 at weight 2^i, one plane at a time |
| `Bitplanes.KthPixel` | src/utils/bitplaneshifter.cpp:36-40 | after k shifts the colour read is the colour made of bit 7-k of every plane: the k-th pixel from the left |
| `Bitplanes.ShiftAgain` | src/utils/bitplaneshifter.cpp:39 | one more shift after k shifts is k+1 shifts, so successive reads walk across the row |
| `Bitplanes.EightShiftsEmpty` | src/utils/bitplaneshifter.cpp:39 | after eight shifts every plane is 0 |
| `Bitplanes.FourPlaneColor` | src/utils/bitplaneshifter.cpp:32-43 | with four planes loaded and the slot past them clear, the colour is below 16 |
| `Bitplanes.BitplaneShifter.constructor` | src/utils/bitplaneshifter.cpp:8-12 | a shifter for n planes with storage for n+1 slots holding the given initial contents |
| `Bitplanes.BitplaneShifter.LoadBitplane` | src/utils/bitplaneshifter.cpp:19-30 | succeeds exactly when the index is at most the plane count, and then replaces that one slot and nothing else |
| `Bitplanes.BitplaneShifter.GetPixelColor` | src/utils/bitplaneshifter.cpp:32-43 | returns the colour of the planes' top bits (over count+1 slots) and shifts every plane once |
| `RingBuffer.SlotsDistinct` | src/utils/circularbuffer.cpp:65-73 | fewer than `size` consecutive positions never share a slot |
| `RingBuffer.PutAll` | src/utils/circularbuffer.cpp:65-73 | a run of `PutSample` writes replaces slots in place and never changes the number of slots |
| `RingBuffer.PutAllKeeps` | src/utils/circularbuffer.cpp:65-73 | a write run shorter than the buffer leaves every older slot within one turn untouched |
| `RingBuffer.ReadBack` | src/utils/circularbuffer.cpp:54-73 | a sample written at the write pointer is still there after fewer than `size` further writes |
| `RingBuffer.CircularBuffer.Empty` | src/utils/circularbuffer.cpp:5-14 | the default buffer: no storage, size 0, length 0, write pointer 0x100 |
| `RingBuffer.CircularBuffer.constructor` | src/utils/circularbuffer.cpp:16-27 | a buffer of n zero samples, read pointer 0, write pointer 0x100, the length as given |
| `RingBuffer.CircularBuffer.GetSample` | src/utils/circularbuffer.cpp:34-52 | an empty buffer yields the zero sample and changes nothing; otherwise the sample at the read pointer, which advances while the length drops by one |
| `RingBuffer.CircularBuffer.ReadSample` | src/utils/circularbuffer.cpp:54-63 | the sample at the read pointer, changing nothing |
| `RingBuffer.CircularBuffer.PutSample` | src/utils/circularbuffer.cpp:65-73 | the sample lands in the write pointer's slot, the write pointer and the length grow by one |
| `CommandLine.Find` | src/utils/commandline.cpp:95-98 | the index of the first argument equal to the flag, or the argument count when none is |
| `CommandLine.CheckCommand` | src/utils/commandline.cpp:95-98 | true exactly when the flag is among the arguments |
| `CommandLine.GetStringValue` | src/utils/commandline.cpp:100-110 | a value exactly when the first occurrence of the flag has an argument after it, and then that argument |
| `CommandLine.ParseSucceeds` | src/utils/commandline.cpp:4-70 | parsing succeeds exactly when there is an argument besides the program name, neither `--help` nor `--version` is given, and every value flag given has a value |
| `CommandLine.ParseValues` | src/utils/commandline.cpp:27-67 | after a successful parse each setting is the argument after its flag's first occurrence, or unchanged when the flag is absent |
| `CommandLine.HelpAndVersionChangeNothing` | src/utils/commandline.cpp:12-25 | `--help` or `--version` anywhere fails the parse and leaves every setting as it was |
| `CommandLine.Options.constructor` | src/utils/commandline.h:9-30 | the three settings start empty |
| `CommandLine.ParseKeepsEarlierValues` | src/utils/commandline.cpp:27-53 | a failure stops the parse with earlier settings already written: a good `--bin` before a bare `--reg` leaves the binary set and fails |
| `CommandLine.Options.ParseArgs` | src/utils/commandline.cpp:4-70 | the step-by-step parse reaches the settings and the verdict of `Parse`, about which the three lemmas above hold |
| `Frames.CellsDistinct` | src/video/framebuffer.cpp:41-50 | `x + y * width` maps each in-range pixel to its own cell inside the buffer |
| `Frames.FrameBuffer.Empty` | src/video/framebuffer.cpp:3-9 | the default framebuffer is 0 by 0 with no storage |
| `Frames.FrameBuffer.constructor` | src/video/framebuffer.cpp:11-20 | a fresh buffer of the given resolution |
| `Frames.FrameBuffer.SetResolution` | src/video/framebuffer.cpp:28-39 | replaces the buffer with a fresh one of the new resolution and reports true |
| `Frames.FrameBuffer.SetPixel` | src/video/framebuffer.cpp:41-45 | writes the one cell of the pixel, changes no other cell, and reports false as the source does |
| `Frames.SetThenGet` | src/video/framebuffer.cpp:41-50 | a pixel reads back what was written to it, and every other pixel keeps its old value |
| `Joypad.ButtonLinesDistinct` | src/controller/controller.cpp:22-113 | each button of each pad drives a single bit, and no two buttons share one |
| `Joypad.SetLineOneBit` | src/controller/controller.cpp:22-113 | an update pulls the button's bit low when pressed and high when released, leaving the other bits |
| `Joypad.PressThenRelease` | src/controller/controller.cpp:22-113 | press then release equals release alone, and restores the register when the line was idle |
| `Joypad.ThBitsFollowData` | src/controller/controller.cpp:127-156 | port B's two TH bits follow bits 7 and 5 of the written value, inverted on a Japanese console, and nothing else is set |
| `Joypad.Controller.constructor` | src/controller/controller.cpp:5-11 | all three ports idle high (0xFF); the region is a parameter since the source leaves it unset |
| `Joypad.Controller.SetRegion` | src/controller/controller.cpp:17-20 | stores the region |
| `Joypad.Controller.SetButtonState` | src/controller/controller.cpp:22-113 | an unknown pad or button changes nothing; otherwise only the button's bit in its own port register changes |
| `Joypad.Controller.Read` | src/controller/controller.cpp:115-125 | port 0x01 reads the nationalisation register, 0xC0 port A, 0xC1 port B, any other address leaves the data unchanged |
| `Joypad.Controller.Write` | src/controller/controller.cpp:127-156 | the written value becomes the nationalisation register and sets port B's TH bits, keeping its low six bits |
| `SegaMapper.MapperSega.constructor` | src/memory/MapperSega.cpp:5-16 | control registers 0, 0, 1, 2 over the given image and cartridge RAM |
| `SegaMapper.MapperSega.RomAt` | src/memory/MapperSega.cpp:22-89 | a ROM byte inside the image, none past its end |
| `SegaMapper.MapperSega.WriteMap` | src/memory/MapperSega.cpp:91-148 | a write at 0xFFFC to 0xFFFF replaces exactly that control register; cartridge RAM never changes |
| `SegaMapper.CartRamNeverEnabled` | src/memory/MapperSega.cpp:45-128 | the tests `(ctl & 0x08) == 1` and `(ctl & 0x10) == 1` are false for every control value |
| `SegaMapper.FirstKiBUnbanked` | src/memory/MapperSega.cpp:27-31 | the first KiB always reads the image's first KiB |
| `SegaMapper.RomSlots` | src/memory/MapperSega.cpp:32-44 | slots 0 and 1 read the banks named by control registers 1 and 2 |
| `SegaMapper.UpperSlots` | src/memory/MapperSega.cpp:45-86 | slot 2 reads the bank of control register 3, and the RAM area passes the bus data through |
| `SegaMapper.InitialBanks` | src/memory/MapperSega.cpp:12-68 | with the reset banks the first 48 KiB map the image one to one |
| `MemoryControl.RamEnabled` | src/memory/memorymanager.cpp:25-31 | system RAM is on exactly when bit 4 of the control byte is clear |
| `MemoryControl.RamEnabledOnlyBit4` | src/memory/memorymanager.cpp:25-31 | only bit 4 decides whether RAM is on |
| `MemoryControl.MemoryManager.constructor` | src/memory/memorymanager.cpp:4-7 | the control byte starts at 0, with RAM on |
| `MemoryControl.MemoryManager.Read` | src/memory/memorymanager.cpp:13-17 | returns the control byte |
| `MemoryControl.MemoryManager.Write` | src/memory/memorymanager.cpp:19-23 | stores the byte; RAM is then on exactly when its bit 4 is clear |
| `MemoryControl.MemoryManager.SystemRamEnabled` | src/memory/memorymanager.cpp:25-31 | true exactly when bit 4 of the stored byte is clear |
| `ToneGenerator.CountsDown` | src/audio/tonegen.cpp:10-18 | with a period above 1, each clock lowers the counter by one while the output holds, until the counter runs out |
| `ToneGenerator.RunSplit` | src/audio/tonegen.cpp:3-21 | running m clocks and then n clocks is the same as running m+n clocks |
| `ToneGenerator.ToggleEvery` | src/audio/tonegen.cpp:13-16 | from a reload the output holds for `frequency` clocks and then flips, with the counter reloaded: a square wave of period 2 × frequency |
| `ToneGenerator.HeldHigh` | src/audio/tonegen.cpp:5-8 | a period of 0 or 1 holds the output high from the first clock on |
| `ToneGenerator.ToneGen.constructor` | src/audio/tonegen.h:6-10 | period 0, counter 0, output low, attenuation index 15, the table's 0.0 |
| `ToneGenerator.ToneGen.Clock` | src/audio/tonegen.cpp:3-21 | one clock is one `ToneStep` of the counter and the output, about which the lemmas above hold |
| `NoiseGenerator.Parity` | src/audio/noisegen.cpp:39-48 | the result is 0 or 1 |
| `NoiseGenerator.ParityIsP` | src/audio/noisegen.cpp:39-48 | the result is 1 exactly when the low byte has even parity, as the Z80's `isP` says, although the source's comment claims odd |
| `NoiseGenerator.ParityEven` | src/audio/noisegen.cpp:39-48 | the result is 1 exactly when the low byte has an even number of set bits |
| `NoiseGenerator.NoiseCountsDown` | src/audio/noisegen.cpp:7-18 | from a counter value c the first c - 1 clocks only count down and never flip the shift flag |
| `NoiseGenerator.NoiseReload` | src/audio/noisegen.cpp:7-18 | the c-th clock from counter c reaches 0, flips the shift flag exactly once and reloads 0x10, 0x20, 0x40 or tone 2's period by the frequency code |
| `NoiseGenerator.WhiteFeedback` | src/audio/noisegen.cpp:21-32 | with the tap 0x0009 white noise shifts right and feeds bit 0 XNOR bit 3 into bit 15 |
| `NoiseGenerator.RotationsAdd` | src/audio/noisegen.cpp:31 | m rotations then n rotations are m+n rotations |
| `NoiseGenerator.FourRotations` | src/audio/noisegen.cpp:31 | four periodic shifts rotate the register right by one nibble |
| `NoiseGenerator.PeriodicCycle` | src/audio/noisegen.cpp:31 | periodic noise returns to its starting register after 16 shifts |
| `NoiseGenerator.ShiftToggle.constructor` | src/audio/noisegen.cpp:5 | the shared shift toggle starts off |
| `NoiseGenerator.NoiseGen.constructor` | src/audio/noisegen.h:6-14 | periodic type, period 0, counter 0, register 0x8000, tap 0x0009, output low, attenuation index 15, the table's 0.0 |
| `NoiseGenerator.NoiseGen.Clock` | src/audio/noisegen.cpp:3-37 | the counter follows `CountStep` (reloading from the period code) and the shared toggle flips exactly when it reloads; while the toggle is on the register shifts by its type (white or periodic) and the output takes its bit 0, while it is off both hold |
| `SoundChip.LatchLowBits` | src/audio/psg.cpp:37-63 | a latch byte replaces the low four bits of a tone period and keeps the rest |
| `SoundChip.DataHighBits` | src/audio/psg.cpp:86-93 | a data byte replaces bits 4-9 of a tone period, keeps the low four, and the period stays below 0x400 |
| `SoundChip.TenBitFrequency` | src/audio/psg.cpp:37-93 | a latch byte and a data byte, in either order, leave the 10-bit period high6:low4 |
| `SoundChip.DataFollowsLatch` | src/audio/psg.cpp:31-93 | a data byte after a tone latch updates the period of the tone channel the latch named |
| `SoundChip.AttenuationInTable` | src/audio/psg.cpp:64-81 | every attenuation write keeps the value below 16, a valid index of the attenuation table |
| `SoundChip.FallThrough` | src/audio/psg.cpp:56-63 | latching register 5 (tone 2 attenuation) also runs the noise-control case; a data byte after a noise latch changes no attenuation |
| `SoundChip.Psg.constructor` | src/audio/psg.cpp:8-13 | fresh tone and noise channels, latch and clock counter at 0 |
| `SoundChip.Psg.Reset` | src/audio/psg.cpp:106-110 | clears the clock counter |
| `SoundChip.Psg.Clock` | src/audio/psg.cpp:112-144 | `ClockedFrom`: the counter grows by one and the registers are kept but for the noise shift register; every 16th clock each tone channel steps as `ToneGenerator.ToneStep` on its period, the noise counter as `NoiseGenerator.CountStep`, the shift register shifts as `NoiseGenerator.Shift` exactly when the shared toggle rises and the noise output is its low bit; on other clocks no channel changes |
| `SoundChip.Psg.ClockChannels` | src/audio/psg.cpp:116-122 | `ChannelsClocked`: each tone channel and the noise channel takes exactly one step of its own clock, as in `Clock`, and no register but the shift register changes |
| `SoundChip.Psg.Write` | src/audio/psg.cpp:25-104 | the latch, each channel's period and attenuation, and the noise control follow the write's specification functions, and the noise register resets to 0x8000 when periodic noise is chosen |
| `SoundChip.Psg.WriteLatch` | src/audio/psg.cpp:31-68 | the latch-byte half of `Write`, with the same postcondition |
| `SoundChip.Psg.WriteData` | src/audio/psg.cpp:69-102 | the data-byte half of `Write`, with the same postcondition |
| `VdpRegs.StatusAfterRead` | src/video/vdp.cpp:455-470 | reading the status clears the vblank and sprite-overflow bits and keeps every other bit |
| `VdpRegs.EntryFields` | src/video/vdp.h:11-22 | in a name-table entry the low byte only selects the tile; tile bit 8, the flips, the palette and the priority all come from the high byte |
| `VdpRegs.ModeNumber` | src/video/vdp.cpp:536 | the mode code `m4*8 + m3*4 + m2*2 + m1` is below 16 |
| `VdpRegs.GeometryLines` | src/video/vdp.cpp:533-587 | a display height is chosen only with M4 set, and it is 192, 224 or 240; 224 needs M1 and M2 without M3, 240 needs M2 and M3 without M1; with M4 clear the geometry is kept |
| `VdpRegs.GeometryBounds` | src/video/vdp.cpp:548-585 | every chosen geometry has at most 256 lines of display and border, and between 1 and 32 name-table rows |
| `VdpRegs.VCountByte` | src/video/vdp.cpp:93-116 | the V counter port returns a byte |
| `VdpRegs.VCountFrame` | src/video/vdp.cpp:93-116 | in every configuration with a table row the V counter byte reads 0 on line 0, the line number on the first border line, and 0xFF on the last line of the frame |
| `VdpRegs.VCountNoTable` | src/video/vdp.cpp:107-115 | NTSC with 240 lines, or an unknown standard, reads 0 on every line |
| `VdpRegs.HCountByte` | src/video/vdp.cpp:119-123 | the H counter port returns a byte |
| `VdpRegs.HCountHalves` | src/video/vdp.cpp:119-123 | within a line the H counter byte is half the column, at most 171 |
| `VdpRegs.BitSwapReverses` | src/video/vdp.cpp:71-74 | the multiply-mask-modulo trick reverses the eight bits, so applying it twice gives the byte back |
| `VdpRegs.BitSwapMirrors` | src/video/vdp.cpp:71-74 | bit 7-k of the swapped byte is bit k of the original: a flipped tile's row comes out mirrored |
| `VdpRegs.SpriteLineInRange` | src/video/vdp.cpp:774-797 | a sprite that covers the line shows a pattern row from 0 to 7, or 0 to 15 for tall sprites |
| `MasterSystem.Inc64` | src/SMS.cpp:290 | the `uint64_t` master counter steps by one modulo 2^64, and every step flips its parity, so the VDP runs on every other tick even across the wrap |
| `MasterSystem.VdpClocks` | src/SMS.cpp:286 | n master ticks clock the VDP at most n times; `ClocksCount` gives the exact count |
| `MasterSystem.CpuClocks` | src/SMS.cpp:287-288 | n master ticks clock the CPU and PSG at most n times; `ClocksCount` gives the exact count |
| `MasterSystem.ClocksCount` | src/SMS.cpp:286-288 | in closed form: the VDP runs on the even ticks of `[tick, tick + n)`, the CPU and PSG on its multiples of three |
| `MasterSystem.ClocksAdd` | src/SMS.cpp:286-290 | the clocks of m ticks and then n more ticks add up |
| `MasterSystem.TwoTicks` | src/SMS.cpp:286 | any two consecutive ticks clock the VDP exactly once: half the master clock |
| `MasterSystem.ThreeTicks` | src/SMS.cpp:287-288 | any three consecutive ticks clock the CPU exactly once: a third of the master clock |
| `MasterSystem.SixTicks` | src/SMS.cpp:286-290 | any six consecutive ticks clock the VDP three times and the CPU twice |
| `MasterSystem.ClockRatio` | src/SMS.cpp:269-293 | 6k consecutive ticks clock the VDP 3k times and the CPU 2k times, from any starting tick |
| `MasterSystem.InTarget` | src/SMS.cpp:143-182 | a port read reaches no device exactly when bits 7, 6 and 0 of the port are 0, 0, 1 |
| `MasterSystem.OutTarget` | src/SMS.cpp:184-218 | a port write reaches no device exactly when bits 7 and 6 are both set |
| `MasterSystem.PortMirrors` | src/SMS.cpp:146 | ports that agree in bits 7, 6 and 0 reach the same device for reads and for writes |
| `MasterSystem.StandardPorts` | src/SMS.cpp:143-218 | the documented ports 0x3E, 0x3F, 0x7E, 0x7F, 0xBE, 0xBF, 0xDC, 0xDD reach their devices, and a read of 0x3F or a write to 0xDC/0xDD reaches none |
| `MasterSystem.Standard` | src/SMS.cpp:46-70 | a European console runs the VDP as PAL (0), Japanese and American ones as NTSC (1) |
| `MasterSystem.Sms.constructor` | src/SMS.cpp:3-39 | master counter 0, the cartridge inserted with the reset banks, the VDP standard and joypad region from the console region, system RAM enabled |
| `MasterSystem.Sms.ReadMem` | src/SMS.cpp:71-105 | below 0xC000 the cartridge mapper answers; above, the 8 KiB system RAM at the address masked to 13 bits when enabled, otherwise 0 (cartridge RAM is never mapped) |
| `MasterSystem.Sms.WriteMem` | src/SMS.cpp:107-141 | an enabled RAM write changes only the mirrored RAM byte and reads back; 0xFFFC to 0xFFFF also set a mapper control register; cartridge RAM never changes |
| `MasterSystem.RamMirror` | src/SMS.cpp:88-94 | an address at 0xC000 and above and its partner with bit 13 flipped read the same byte: the RAM is mirrored |
| `MasterSystem.Sms.ReadIO` | src/SMS.cpp:143-182 | each read target returns its device's value (memory control, V and H counters, the VDP data buffer with the address advanced, the status with its flags cleared, the two joypad ports) and port 0x01-type reads return 0; no other device state changes |
| `MasterSystem.Sms.WriteIO` | src/SMS.cpp:184-218 | each write reaches only the device its masked port names: memory control stores the byte; the joypad control sets TH; the PSG register file is retuned as `SoundChip.Retuned`; port 0x80 is a VDP data write (`DataWritten`) and 0x81 a control write (`ControlWritten`); every device not addressed is unchanged, and 0xC0-0xFF reach none |
| `MasterSystem.Sms.WriteBusPort` | src/SMS.cpp:191-198 | a memory-control write stores the byte and leaves the joypad alone; a joypad-control write sets the control byte and TH and leaves the memory control alone; the VDP and PSG are untouched |
| `MasterSystem.Sms.WritePsgPort` | src/SMS.cpp:199-206 | the PSG register file is retuned as `SoundChip.Retuned`; the VDP, memory control and joypad are untouched |
| `MasterSystem.Sms.WriteVdpPort` | src/SMS.cpp:207-214 | port 0x80 is a VDP data write (`DataWritten`), 0x81 a control write (`ControlWritten`); the data port alone changes VRAM and CRAM, the control port alone the command latch and the registers; the PSG, memory control and joypad are untouched |
| `MasterSystem.Sms.Clock` | src/SMS.cpp:269-293 | the master counter steps modulo 2^64; on an even tick the VDP runs one clock (`Video.Vdp.ClockedFrom`: the cell painted, the beam moved as `VdpTiming.Tick`, the status flags raised) and otherwise its picture, status and beam are held; an interrupt it requests is latched in the CPU; on a tick divisible by 3 the CPU runs one clock (`Z80Cpu.Z80A.ClockedFrom`) and the PSG one (`SoundChip.Psg.ClockedFrom`), and otherwise the CPU core state and the PSG are held |
| `MasterSystem.Sms.ClockDevices` | src/SMS.cpp:286-288 | the three device calls of one master tick, with the device half of `Clock`'s postcondition (`Clocked`) |
| `MasterSystem.Sms.VdpPhase` | src/SMS.cpp:286 | on an even tick the VDP runs one clock as `Video.Vdp.ClockedFrom` (painting, beam, interrupt request, status flags); on other ticks its picture, status and beam are held and nothing is requested; the CPU and PSG are untouched |
| `MasterSystem.Sms.RunVdp` | src/video/vdp.cpp:200-322 | one VDP clock as `Video.Vdp.ClockedFrom`: the cell drawn as `Painted`, the counters moved as `VdpTiming.Tick`, the interrupt request and the vblank and sprite-overflow flags as the timing model decides |
| `MasterSystem.Sms.CpuPhase` | src/SMS.cpp:287-288 | the VDP's request is latched; on a tick divisible by 3 the CPU then runs one clock and the PSG one; on other ticks the whole CPU core state (registers, memory, IFFs, port log, counters) is the old one with only the latch set, and the PSG is held; the VDP is untouched |
| `MasterSystem.Sms.LatchIrq` | src/video/vdp.cpp:233-247 | a request from the VDP sets the CPU's IRQ latch, and nothing else in the CPU changes |
| `MasterSystem.Sms.RunCpu` | src/SMS.cpp:287 | one CPU clock as `Z80Cpu.Z80A.ClockedFrom`; the VDP and PSG are untouched |
| `MasterSystem.Sms.RunPsg` | src/SMS.cpp:288 | one PSG clock as `SoundChip.Psg.ClockedFrom`: the counter steps and every 16th clock each channel steps; the VDP and CPU are untouched |
| `MasterSystem.Sms.NewFrame` | src/SMS.cpp:234-243 | runs master clocks until the frame completes, then clears the flag; from an incomplete frame the beam ends at column 1 of line 0 with the frame counted once |
| `MasterSystem.Sms.RunFrame` | src/SMS.cpp:236-239 | the do-while loop terminates, with the frame complete and, from an incomplete frame, counted exactly once |
| `MasterSystem.Sms.Step` | src/SMS.cpp:236-239 | one master clock of the frame loop keeps the frame count while the frame is incomplete and brings the clock that completes it strictly nearer |
| `MasterSystem.Sms.ClockBeam` | src/SMS.cpp:269-293 | one master clock seen from the frame loop: the beam moves as `VdpTiming.Tick` on an even tick and stays otherwise, and the counter steps |
| `MasterSystem.Sms.Reset` | src/SMS.cpp:245-254 | master counter 0; the VDP at its reset state (power-on registers, status 0, counters, command latch, address, read buffer and raster counter 0, 192 active lines); the CPU registers, IFFs, latches, halt, mode and cycle counter reset; the PSG counter 0 |
| `MasterSystem.Sms.ResetDevices` | src/SMS.cpp:249-251 | the VDP, CPU and PSG reset states, as in `Reset` |
| `MasterSystem.Sms.ResetAt` | src/SMS.cpp:256-267 | the reset states of `Reset` with the program counter set to the given origin |
| `Video.SpriteTableBase` | src/video/vdp.cpp:519-523 | the sprite attribute table sits on a 256-byte boundary inside the 16 KiB VRAM (at most 0x3f00) |
| `Video.NameTableBase` | src/video/vdp.cpp:526-530 | the name table sits on a 2 KiB boundary inside VRAM (at most 0x3800) |
| `Video.Next` | src/video/vdp.cpp:431-432 | the address register steps by one and wraps from 0x3fff back to 0 |
| `Video.WithLow` | src/video/vdp.cpp:507 | a first control byte replaces the command word's low byte and keeps its high byte |
| `Video.WithHigh` | src/video/vdp.cpp:479-480 | a second control byte replaces the command word's high byte and keeps its low byte |
| `Video.Code` | src/video/vdp.cpp:484 | the command code is one of the four codes 0-3 |
| `Video.Address` | src/video/vdp.cpp:488 | the address taken from a command word is always a VRAM address |
| `Video.RegisterNumber` | src/video/vdp.cpp:591 | a register write names one of 16 register numbers (only 0-10 exist) |
| `Video.CramIndex` | src/video/vdp.cpp:448 | a CRAM write lands in one of the 32 CRAM entries whatever the address register holds |
| `Video.CommandWordPair` | src/video/vdp.cpp:474-510 | two control bytes make a command whatever the word held before: the code is the second byte's top two bits, the address its low six bits with the first byte, the register number its low nibble and the value the first byte |
| `Video.Raise` | src/video/vdp.cpp:302-303 | raising a status flag sets the masked bits and leaves every other bit, and changes nothing when the condition is false |
| `Video.Painted` | src/video/vdp.cpp:250-277 | one clock leaves the frame buffer untouched outside the visible area and keeps its size |
| `Video.Vdp.constructor` | src/video/vdp.cpp:5-54 | the power-on register values 0x36, 0xa0, 0xff, 0xff, 0xff, 0xff, 0xfb, 0, 0, 0, 0xff, a clear status, zeroed counters and ports, 192 active lines and the line count of the chosen standard (313 PAL, 262 NTSC) |
| `Video.Vdp.Reset` | src/video/vdp.cpp:162-198 | `ResetDone`: the registers take the power-on values 0x36, 0xa0, 0xff, 0xff, 0xff, 0xff, 0xfb, 0, 0, 0, 0xff; the status, both beam counters, the frame and cycle counters, the command word, code, address, read buffer and raster counter are 0; the frame-complete and first-byte flags clear; 192 active lines |
| `Video.Vdp.ResetCounters` | src/video/vdp.cpp:164-195 | the beam counters, frame counter, cycle counter, raster counter and frame-complete flag are zero |
| `Video.Vdp.ResetPorts` | src/video/vdp.cpp:185-192 | the command word, code, address, read buffer and first-byte flag are cleared |
| `Video.Vdp.ReadDataPort` | src/video/vdp.cpp:425-435 | a data read returns the buffered byte, prefetches the byte at the address, steps the address with the 16 KiB wrap and ends a half-written command |
| `Video.Vdp.WriteDataPort` | src/video/vdp.cpp:438-452 | a data write stores into VRAM for codes 0-2 and into the CRAM entry for code 3, refreshes the read buffer except for code 2, steps the address and ends a half-written command; nothing else in either memory changes |
| `Video.Vdp.ReadControlPort` | src/video/vdp.cpp:455-470 | a status read returns the status as it was, then clears vblank and sprite overflow and ends a half-written command |
| `Video.Vdp.WriteControlPort` | src/video/vdp.cpp:474-513 | the first byte of a pair replaces the low byte and points the address at it; the second replaces the high byte, decodes the code, prefetches for code 0 and writes a register for code 2 |
| `Video.Vdp.FirstControlByte` | src/video/vdp.cpp:504-510 | the low byte is replaced without clearing the high byte, the address follows the word, and nothing else changes |
| `Video.Vdp.SecondControlByte` | src/video/vdp.cpp:476-503 | the command is decoded from the completed word: code 0 prefetches and advances, code 2 writes the register, codes 1 and 3 only set the address |
| `Video.Vdp.LatchHigh` | src/video/vdp.cpp:479-484 | the high byte is latched, the pair is complete, and the code and address come from the new word |
| `Video.Vdp.Prefetch` | src/video/vdp.cpp:487-491 | the read buffer takes the byte at the address and the address steps with the 16 KiB wrap |
| `Video.Vdp.WriteRegister` | src/video/vdp.cpp:516-607 | the named register takes the low byte (numbers 11-15 change nothing); reg0 and reg1 writes redecode the geometry and mode, reg5 writes move the sprite table and reg6 writes recompute the name table from reg2; every other write leaves those alone |
| `Video.Vdp.SetVideoMode` | src/video/vdp.cpp:533-587 | the Mode 4 codes select their geometry and mode 4, code 2 selects mode 2, every other code keeps the previous geometry and mode |
| `Video.Vdp.Read` | src/video/vdp.cpp:90-145 | port 0x40 reads the V counter byte, 0x41 the H counter byte, 0x80 the data port and 0x81 the status; any other port leaves the data as given, and only the data port moves the address and only the status port clears flags |
| `Video.Vdp.Write` | src/video/vdp.cpp:147-160 | port 0x80 is a data write (`DataWritten`: VRAM takes the byte at the address for codes 0-2, the CRAM entry for code 3, the read buffer refreshes except for code 2, the address steps, a half-written command ends); port 0x81 a control write (`ControlWritten`: a first byte replaces the command's low byte, a second completes it, decodes code and address, prefetches for code 0 and writes a register for code 2); only the data port changes VRAM or CRAM, only the control port the setup, and any other port changes neither |
| `Video.Vdp.SceneOf` | src/video/vdp.cpp:614-899 | the registers, memories and counters the renderer reads form a well-formed scene whenever the VDP's memories have their sizes |
| `Video.Vdp.PlotPixel` | src/video/framebuffer.cpp:41-45 | a pixel whose cell x + 256·y lies inside the buffer is stored there and nothing else changes; one outside it is dropped |
| `Video.Vdp.LoadTile` | src/video/vdp.cpp:691-731 | after the four plane loads the shifter holds the tile row's four bitplanes |
| `Video.Vdp.DrawRow` | src/video/vdp.cpp:736-764 | eight shifts draw the tile row's opaque pixels in their CRAM colours, leave transparent ones, and empty the shifter |
| `Video.Vdp.DrawPixel` | src/video/vdp.cpp:740-762 | one shift draws pixel j of the row (unless it is transparent) and moves to the next |
| `Video.Vdp.RenderBackground` | src/video/vdp.cpp:614-770 | at column 255 every one of the 32 tile columns whose priority bit matches is drawn for the line; at any other column nothing changes |
| `Video.Vdp.BackgroundColumn` | src/video/vdp.cpp:637-766 | one tile column is loaded and drawn only when its priority matches; the shifter ends as that tile leaves it |
| `Video.Vdp.SelectSprites` | src/video/vdp.cpp:800-831 | the sprite buffer holds the line's first eight covering sprites in table order (stopping at a 0xd0 terminator in 192-line mode) and the overflow flag is raised exactly when a ninth covers the line |
| `Video.Vdp.ScanSprites` | src/video/vdp.cpp:803-831 | the scan loop selects the same sprites as the scan function and breaks on a ninth |
| `Video.Vdp.Keep` | src/video/vdp.cpp:821-822 | the selected sprite is appended to the buffer and the count goes up by one |
| `Video.Vdp.DrawSprites` | src/video/vdp.cpp:833-881 | the selected sprites are drawn in buffer order, later ones over earlier ones |
| `Video.Vdp.DrawSprite` | src/video/vdp.cpp:836-880 | one selected sprite's row on the current line is drawn and the shifter is emptied |
| `Video.Vdp.RenderSprites` | src/video/vdp.cpp:772-885 | at column 255 the line's sprites are selected, overflow is flagged, and they are drawn; at any other column nothing changes |
| `Video.Vdp.MaskColumnOne` | src/video/vdp.cpp:887-899 | at column 255 with `lcb` the first eight pixels of the line take the backdrop colour; otherwise nothing changes |
| `Video.Vdp.RenderCell` | src/video/vdp.cpp:250-277 | the drawing half of a clock leaves the buffer as `Painted` says and raises sprite overflow only on a visible, enabled column 255 whose line has a ninth sprite |
| `Video.Vdp.ComposeCell` | src/video/vdp.cpp:253-269 | backdrop, priority-0 background, sprites, priority-1 background and the left mask, in that order |
| `Video.Vdp.LowPasses` | src/video/vdp.cpp:259-262 | the priority-0 background and then the sprites, with the overflow flag of the sprite scan |
| `Video.Vdp.HighPasses` | src/video/vdp.cpp:265-268 | the priority-1 background drawn over the sprites and then the left-column mask |
| `Video.Vdp.Count` | src/video/vdp.cpp:279-319 | the counting half of a clock moves the beam exactly as the timing model's `Tick` does, raises vblank when it says so and requests an interrupt exactly when it says so |
| `Video.Vdp.Advance` | src/video/vdp.cpp:317-319 | the column counter steps by one and the cycle counter steps modulo 2^32 |
| `Video.Vdp.NextLine` | src/video/vdp.cpp:283-296 | the beam wraps to the next line after column 342 and to line 0 after the last line, as `VdpTiming.Wrap` |
| `Video.Vdp.FramePoints` | src/video/vdp.cpp:298-308 | vblank is raised at column 303 of the first line below the active area, and the frame interrupt is requested at column 304 of that line exactly when `ie0` is set |
| `Video.Vdp.CheckRasterCounter` | src/video/vdp.cpp:205-230 | the raster counter steps and reloads as `VdpTiming.RasterStep` and fires exactly when it does |
| `Video.Vdp.Clock` | src/video/vdp.cpp:200-322 | one VDP clock draws what `Painted` says, moves the beam as `VdpTiming.Tick`, requests the CPU interrupt exactly when the timing model does, and raises sprite overflow and vblank when each is due |
| `VdpTiming.Wrap` | src/video/vdp.cpp:284-296 | only column 342 wraps: to column 0 of the next line, or to line 0 after the last line, where the frame is flagged complete and counted modulo 2^32; the raster and cycle counters are untouched |
| `VdpTiming.TickRange` | src/video/vdp.cpp:284-319 | the counters stay inside the frame, and after any clock the column is at least 1: column 0 exists only inside the clock that wraps a line |
| `VdpTiming.IrqPoints` | src/video/vdp.cpp:299-315 | an interrupt is requested exactly at column 304, of the first line below the active area with `ie0`, or while the raster counter fires with `ie1` |
| `VdpTiming.VblankPoint` | src/video/vdp.cpp:299-303 | vblank is raised exactly at column 303 of the first line below the active area |
| `VdpTiming.RasterHeld` | src/video/vdp.cpp:205-230 | below the first line past the active area the raster counter holds reg10 and never fires |
| `VdpTiming.TicksAdd` | src/video/vdp.cpp:200-322 | m clocks followed by n clocks are m + n clocks |
| `VdpTiming.WithinLine` | src/video/vdp.cpp:279-319 | inside a line the clocks only move the column; the line, the frame count, the completion flag and, on counted lines, the raster counter stay |
| `VdpTiming.LineRun` | src/video/vdp.cpp:205-296 | a line is 342 clocks: from column 1 the counters reach column 1 of the next line (line 0 and a completed, counted frame after the last), and on a line inside the active area the raster counter drops by one, after reloading from reg10 when it had underflowed |
| `VdpTiming.LineEnd` | src/video/vdp.cpp:205-296 | the last two clocks of a line move to column 1 of the next line with the same raster reload and count-down |
| `VdpTiming.LastColumn` | src/video/vdp.cpp:215-220 | column 341 moves to 342 and reloads an underflowed raster counter from reg10 on a counted line |
| `VdpTiming.WrapColumn` | src/video/vdp.cpp:209-213 | column 342 wraps to column 1 of the next line and counts the raster counter down once on a line inside the active area |
| `VdpTiming.LinesRun` | src/video/vdp.cpp:284-296 | n lines of 342 clocks from the top of a frame reach line n without completing the frame |
| `VdpTiming.FrameRun` | src/video/vdp.cpp:284-296 | a frame is lines × 342 clocks: from column 1 of line 0 the counters return there with the frame complete and counted once |
| `VdpTiming.FrameEnd` | src/video/vdp.cpp:289-295 | the frame completes only on the clock that wraps the last line; every other clock keeps the flag and the frame count and brings the end one clock nearer |
| `VdpRender.PixelColor` | src/utils/bitplaneshifter.cpp:32-43 | a pixel of a loaded tile row is a 4-bit colour, 0 to 15 |
| `VdpRender.BgTile` | src/video/vdp.cpp:637-731 | every background column yields a well-formed tile row: four planes loaded and the fifth clear |
| `VdpRender.SpriteTile` | src/video/vdp.cpp:836-867 | every selected sprite yields a well-formed tile row of palette 1 |
| `VdpRender.Select` | src/video/vdp.cpp:803-831 | the sprite scan never keeps more than the eight sprites the buffer holds |
| `VdpRender.Limit` | src/video/vdp.cpp:808-810 | the scan stops at the first 0xd0 terminator (only in 192-line mode) and runs to sprite 64 when there is none |
| `VdpRender.Covering` | src/video/vdp.cpp:774-797 | the covering list holds only sprites of the range that cover the current line |
| `VdpRender.CoveringComplete` | src/video/vdp.cpp:774-797 | no sprite of the range that covers the line is missing from the list |
| `VdpRender.CoveringSorted` | src/video/vdp.cpp:804 | the covering sprites come in strictly increasing table order, so without repeats |
| `VdpRender.IncreasingCons` | src/video/vdp.cpp:804 | a sprite below every later one keeps the list increasing |
| `VdpRender.FillCons` | src/video/vdp.cpp:818-823 | keeping one sprite and then the rest fills the buffer as keeping both at once |
| `VdpRender.FillFull` | src/video/vdp.cpp:824-829 | once eight sprites are kept, any further covering sprite means overflow and the buffer is unchanged |
| `VdpRender.SelectFrom` | src/video/vdp.cpp:803-831 | the scan loop keeps exactly the covering sprites before the terminator, up to eight, and reports whether any were left over |
| `VdpRender.SelectFirstEight` | src/video/vdp.cpp:800-831 | the buffer holds the first eight sprites on the line in table order (all of them when there are fewer), and sprite overflow is raised if and only if more than eight cover the line |
| `Z80Regs.Pair` | src/cpu/z80a.h:76-86 | a register pair built from two bytes reads back the high byte in `h` and the low byte in `l` (the little-endian union) |
| `Z80Regs.PairOfHalves` | src/cpu/z80a.h:76-86 | every 16-bit pair is its two halves put back together |
| `Z80Regs.WithHi` | src/cpu/z80a.h:12-25 | writing the high byte of a pair (A, B, D, H, I, W) leaves the low byte as it was |
| `Z80Regs.WithLo` | src/cpu/z80a.h:12-25 | writing the low byte of a pair (F, C, E, L, R, Z) leaves the high byte as it was |
| `Z80Regs.Opw` | src/cpu/z80a.h:61 | an operand word is little-endian: the byte at x is its low byte and the byte at x + 1 its high byte |
| `Z80Regs.Disp` | src/cpu/z80a.cpp:3893 | a displacement byte is sign-extended: 0-0x7f add themselves, 0x80-0xff subtract 256, modulo 2^16 |
| `Z80Regs.Pack` | src/cpu/z80a.h:64-74 | each flag lands on its bit of F: S 7, Z 6, Y 5, H 4, X 3, P/V 2, N 1, C 0 |
| `Z80Regs.PackUnpack` | src/cpu/z80a.h:88-106 | reading F as eight flag bits and writing them back gives the same byte |
| `Z80Regs.UnpackPack` | src/cpu/z80a.h:88-106 | writing eight flags into F and reading them back gives the same flags |
| `Z80Regs.WithA` | src/cpu/z80a.h:13-14 | writing A leaves the flags |
| `Z80Regs.WithF` | src/cpu/z80a.h:13-14 | writing the flags leaves A |
| `Z80Regs.WithIndexPair` | src/cpu/z80a.cpp:2680-2681 | writing HL, or IX under a DD prefix, or IY under FD, sets exactly that pair and leaves AF, BC, DE, SP and the special registers |
| `Z80Regs.SetReg8` | src/cpu/z80a.cpp:2089-2120 | writing a register code (B, C, D, E, H/IXH/IYH, L/IXL/IYL, A) makes that code read back the value and leaves the flags, SP and the special registers |
| `Z80Regs.SetReg8Other` | src/cpu/z80a.cpp:2089-2120 | writing one register code leaves every other register code as it was |
| `Z80Regs.SetPair16` | src/cpu/z80a.cpp:2292-2306 | writing pair code 0-3 (BC, DE, HL/IX/IY, SP) reads back the word and leaves AF and the special registers |
| `Z80Regs.SetStackPair` | src/cpu/z80a.cpp:2453-2465 | writing a push/pop pair code (BC, DE, HL, AF) reads back the word and leaves SP and the special registers |
| `Z80Regs.CondPairs` | src/cpu/z80a.cpp:3875-3885 | each odd condition code is the negation of the even code before it (NZ/Z, NC/C, PO/PE, P/M) |
| `Z80Flags.LowMaskAtFlagBits` | src/cpu/z80a.cpp:2047 | the shifted all-ones mask is 0xf, 0xff, 0xfff or 0xffff, i.e. 2^bit - 1, at every width the helpers are called with |
| `Z80Flags.IsPIsXorBits` | src/cpu/z80a.cpp:2032-2041 | the 0x6996 nibble lookup is true exactly when the xor of all eight bits is 0 |
| `Z80Flags.XorBitsStep` | src/cpu/z80a.cpp:2032-2041 | the xor of a byte's bits is its low bit xor the xor of the rest |
| `Z80Flags.XorBitsPopCount` | src/cpu/z80a.cpp:2032-2041 | the xor of the bits is 0 exactly when the number of set bits is even |
| `Z80Flags.IsPEven` | src/cpu/z80a.cpp:2032-2041 | `isP` is true exactly for an even number of set bits, as the P/V flag requires (the comment beside it says the opposite) |
| `Z80Flags.CarryOut8` | src/cpu/z80a.cpp:2044-2050 | unless the carry-in meets an operand of 0xff, `isC` at bit 8 is the carry out of a + v + cin |
| `Z80Flags.CarryOut4` | src/cpu/z80a.cpp:2044-2050 | unless the carry-in meets a low nibble of 0xf, `isC` at bit 4 is the half carry of the nibble sum |
| `Z80Flags.SumLow8` | src/cpu/z80a.cpp:2728 | ADD and ADC leave A as a + v + cin modulo 256 |
| `Z80Flags.DifferenceLow8` | src/cpu/z80a.cpp:2751-2829 | SUB and SBC leave A as a - v - cin modulo 256 |
| `Z80Flags.BorrowIn8` | src/cpu/z80a.cpp:2053-2059 | unless the borrow-in meets an operand of 0xff, `isB` at bit 8 is the borrow of a - v - cin |
| `Z80Flags.CompareBorrow` | src/cpu/z80a.cpp:2974 | a subtraction without borrow-in sets carry exactly when a < v |
| `Z80Flags.BorrowIn4` | src/cpu/z80a.cpp:2053-2059 | unless the borrow-in meets a low nibble of 0xf, `isB` at bit 4 is the half borrow |
| `Z80Flags.AddExact` | src/cpu/z80a.cpp:2687-2747 | away from the carry-in corner, ADD/ADC give the sum modulo 256, the true carry and half carry, N clear, Z and S of the result, and keep Y and X |
| `Z80Flags.AddOverflow` | src/cpu/z80a.cpp:2062-2067 | after ADD, P/V is the signed overflow: the operands share a sign and the result has the other one |
| `Z80Flags.SubExact` | src/cpu/z80a.cpp:2751-2829 | away from the borrow-in corner, SUB/SBC give the difference modulo 256, the true borrow and half borrow, N set, Z and S of the result, and keep Y and X |
| `Z80Flags.CpIsSubWithoutStore` | src/cpu/z80a.cpp:2953-2990 | CP leaves A, sets the same flags as SUB, carry exactly when a < v and zero exactly when a == v |
| `Z80Flags.LogicFacts` | src/cpu/z80a.cpp:2833-2949 | AND, OR and XOR store the bitwise result, set H only for AND, clear C and N, and set P/V to the result's even parity |
| `Z80Flags.AdcLosesCarry` | src/cpu/z80a.cpp:2728-2731 | with carry set and a low nibble of 0xf the half carry comes out clear although the nibble sum overflows, and ADC A,0xff with carry set leaves A unchanged with carry clear |
| `Z80Flags.SbcLosesBorrow` | src/cpu/z80a.cpp:2810-2813 | SBC A,0xff with carry set leaves A unchanged with carry and half carry clear, although the subtraction borrows |
| `Z80Decode.Poke` | src/cpu/z80a.cpp:1979-1984 | a byte write changes the addressed byte and no other |
| `Z80Decode.Peek16` | src/cpu/z80a.cpp:1972-1977 | a word read takes its low byte at the address and its high byte at the next address, wrapping at 0xffff |
| `Z80Decode.Poke16` | src/cpu/z80a.cpp:1986-1992 | a word write stores the low byte at the address and the high byte after it, and no other byte changes |
| `Z80Decode.Peek16Poke16` | src/cpu/z80a.cpp:1972-1992 | a word written and read back at the same address is the same word |
| `Z80Decode.DecodeIndex` | src/cpu/z80a.cpp:1883-1895 | the table index is the prefix group times 0x100 plus the key byte (the opcode, the byte after CB/DD/ED/FD, or the fourth byte after DD CB/FD CB), always inside the 0x700-entry table |
| `Z80Decode.DecodeIndexInjective` | src/cpu/z80a.cpp:1883-1895 | under the same prefix two instructions share a table entry exactly when their key bytes agree |
| `Z80Decode.NextR` | src/cpu/z80a.cpp:1904-1906 | the refresh register keeps bit 7 and its low seven bits step by 1 for an unprefixed opcode and by 2 for a prefixed one |
| `Z80Decode.Fetched` | src/cpu/z80a.cpp:1863-1866 | four opcode bytes are read, the first at PC |
| `Z80Decode.IncFlagsExact` | src/cpu/z80a.cpp:2994-3017 | INC sets half carry exactly when the low nibble was 0xf, overflow exactly when 0x7f became 0x80, and leaves carry |
| `Z80Decode.DecFlagsExact` | src/cpu/z80a.cpp:3021-3044 | DEC sets half borrow exactly when the low nibble was 0, overflow exactly when 0x80 became 0x7f, and leaves carry |
| `Z80Decode.RotateInverse` | src/cpu/z80a.cpp:3405-3570 | RRC undoes RLC, and RR undoes RL, carry included |
| `Z80Decode.ShiftRightFacts` | src/cpu/z80a.cpp:3612-3732 | SRA keeps the sign bit and SRL clears it; both put bit 0 in carry, and SRL halves the value |
| `Z80Decode.Add16Carry` | src/cpu/z80a.cpp:3190-3207 | ADD HL,ss sets carry exactly when the 16-bit sum overflows |
| `Z80Decode.Adc16LosesCarry` | src/cpu/z80a.cpp:3210-3227 | ADC HL,0xffff with carry set leaves HL unchanged and reports no carry, although the sum overflows |
| `Z80Decode.DigitLeftNibbles` | src/cpu/z80a.cpp:3735-3747 | RLD moves the low nibble of (HL) up, its high nibble into A's low nibble, and A's low nibble into (HL)'s low nibble; A's high nibble stays |
| `Z80Decode.DigitRotationsInverse` | src/cpu/z80a.cpp:3735-3762 | RRD undoes RLD and RLD undoes RRD |
| `Z80Decode.ForceBit` | src/cpu/z80a.cpp:3792-3861 | SET and RES force the chosen bit on or off and leave the other seven |
| `Z80Decode.BitAfterForce` | src/cpu/z80a.cpp:3766-3861 | BIT after SET finds the bit set (Z clear) and after RES finds it clear (Z set) |
| `Z80Decode.BlockIoRegs` | src/cpu/z80a.cpp:4119-4239 | INI, IND, OUTI and OUTD count B down by one, keep C and A, set N and set Z exactly when B reaches 0 |
| `Z80Decode.BlockIoCountsDown` | src/cpu/z80a.cpp:4132-4254 | a repeating block transfer goes on exactly while the decremented B is not 0 |
| `Z80Decode.DaaOfSum` | src/cpu/z80a.cpp:3048-3086 | after adding two BCD bytes with the true half carry and carry, DAA gives the decimal sum digit by digit and the decimal carry |
| `Z80Decode.BcdSumIsBcd` | src/cpu/z80a.cpp:3048-3086 | the decimal sum of two BCD bytes is itself BCD |
| `Z80Decode.AddWithoutCarry` | src/cpu/z80a.cpp:2687-2706 | ADD without carry-in stores the sum, clears N and reports the true half carry and carry |
| `Z80Decode.DaaAfterAdd` | src/cpu/z80a.cpp:2696-3086 | ADD followed by DAA on two BCD bytes leaves the BCD sum in A and the decimal carry in C |
| `Z80Decode.RetNzDecodes` | src/cpu/z80a.cpp:1893-1894 | opcode 0xc0 decodes to table entry 0xc0 |
| `Z80Decode.RetNzEntry` | src/cpu/z80a.cpp:231 | table entry 0xc0 is RET NZ with 11 cycles when taken, 5 when not, length 1 |
| `Z80Decode.RetCcChargesTakenCycles` | src/cpu/z80a.cpp:4026-4041 | RET NZ with Z set does not return, yet the handler reports true, so the taken count is charged |
| `Z80Decode.TakenReadsAfBcHl` | src/cpu/z80a.cpp:1909-1912 | whether an instruction counts as taken depends only on AF, BC, HL, the opcode bytes and memory, so it can be read before PC and R move |
| `Z80Decode.FetchedRegs` | src/cpu/z80a.cpp:1898-1906 | the fetch step moves only PC and R: AF, BC, HL and SP are as before |
| `Z80Decode.RetNzChargedAsTaken` | src/cpu/z80a.cpp:1909-1912 | a RET NZ that does not return is charged 11 cycles, the count of a return, instead of 5 |
| `Z80Regs.ExchangesInvolutive` | src/cpu/z80a.cpp:2497-2514 | EX AF,AF' and EXX undo themselves: swapping AF, or BC, DE and HL, with the shadow set twice gives back every pair |
| `Z80Decode.PushThenPop` | src/cpu/z80a.cpp:1994-2011 | a push stores the low byte at SP - 2 and the high byte at SP - 1, and a pop at the lowered SP reads the same word back and restores SP |
| `Z80Table.Group0` | src/cpu/z80a.cpp:38-294 | every main-group entry (no prefix) is at most three bytes long |
| `Z80Table.Group1` | src/cpu/z80a.cpp:296-552 | every CB entry is two bytes long, costs at least 8 cycles and has no second count |
| `Z80Table.Group2` | src/cpu/z80a.cpp:554-810 | every DD entry is at least two bytes long and has no second count |
| `Z80Table.Group3` | src/cpu/z80a.cpp:812-1068 | every ED entry is two or four bytes long |
| `Z80Table.Group4` | src/cpu/z80a.cpp:1070-1326 | every FD entry is at least two bytes long and has no second count |
| `Z80Table.Group5` | src/cpu/z80a.cpp:1328-1584 | every DD CB entry is four bytes long, costs at least 20 cycles and has no second count |
| `Z80Table.Group6` | src/cpu/z80a.cpp:1586-1842 | every FD CB entry is four bytes long, costs at least 20 cycles and has no second count |
| `Z80Table.Entry` | src/cpu/z80a.cpp:36-1843 | `instSet[i]` for the 0x700 indices: unprefixed entries are at most three bytes, prefixed ones at least two, CB entries two bytes and at least 8 cycles, DD CB and FD CB entries four bytes and at least 20 cycles, and only main and ED entries have a second (not-taken) count |
| `Z80Cpu.ResumeAfterHalt` | src/cpu/z80a.cpp:4306-4372 | servicing an interrupt in a halted CPU moves PC past the HALT and changes no other register |
| `Z80Cpu.Interrupted` | src/cpu/z80a.cpp:4306-4372 | taking an interrupt moves SP down by two and PC to the vector, and changes no other register |
| `Z80Cpu.UnconditionalTaken` | src/cpu/z80a.cpp:1909-1912 | every handler other than the repeating block, conditional relative-jump, DJNZ and CALL cc handlers reports true, so `clock` charges its first cycle count |
| `Z80Cpu.Z80A.constructor` | src/cpu/z80a.cpp:7-28 | power-on: AF, AF' and SP are 0xffff, every other pair and PC are 0, interrupts are disabled in mode 0, no latch is pending and no cycle is outstanding |
| `Z80Cpu.Z80A.Reset` | src/cpu/z80a.cpp:1925-1949 | reset restores the power-on registers and status and zeroes the cycle counter; WZ and the outstanding `cycles` are kept |
| `Z80Cpu.Z80A.Irq` | src/cpu/z80a.cpp:1951-1957 | a maskable interrupt request is latched until the next instruction boundary |
| `Z80Cpu.Z80A.Nmi` | src/cpu/z80a.cpp:1959-1965 | a non-maskable interrupt request is latched |
| `Z80Cpu.Z80A.IoWrite` | src/cpu/z80a.cpp:2018-2023 | a port write is appended to the output log as (port, value) |
| `Z80Cpu.Z80A.Push` | src/cpu/z80a.cpp:2003-2011 | a push stores the word's low byte at SP - 2 and high byte at SP - 1 and moves SP down by two; nothing else changes |
| `Z80Cpu.Z80A.Pop` | src/cpu/z80a.cpp:1994-2001 | a pop returns the little-endian word at SP and moves SP up by two; nothing else changes |
| `Z80Cpu.Z80A.IrqExec` | src/cpu/z80a.cpp:4306-4345 | the latch always clears; with IFF1 set both flip-flops clear, and only in mode 1 is the interrupt serviced (HALT left, PC pushed, PC = 0x38, 13 cycles); modes 0 and 2, or IFF1 clear, change nothing else |
| `Z80Cpu.Z80A.NmiExec` | src/cpu/z80a.cpp:4348-4372 | the latch and IFF1 clear while IFF2 keeps the old enable, a HALT is left, the resume address is pushed, PC = 0x66 and 11 cycles are charged |
| `Z80Cpu.Z80A.Fetch` | src/cpu/z80a.cpp:1862-1906 | four bytes are read at PC, the prefix and table index are decoded from them, and only PC and R move |
| `Z80Cpu.Z80A.Clock` | src/cpu/z80a.cpp:1854-1923 | `ClockedFrom`: mid-instruction a tick only counts down and is counted, with every other part of the core unchanged; at a boundary a pending NMI wins over a pending IRQ: the NMI pushes the resume address, enters 0x66, clears IFF1 and leaves 10 cycles; a taken mode-1 IRQ pushes it, enters 0x38, clears both IFFs and leaves 12; a refused IRQ only clears its latch (and the IFFs when IFF1 was set) and leaves `cycles` wrapped to 255; neither interrupt tick is counted; otherwise the instruction at PC is decoded and charged its table count less this tick, which is counted |
| `Z80Cpu.Z80A.ServiceInterrupt` | src/cpu/z80a.cpp:1859-1860 | `Serviced`: a pending NMI is serviced before a pending IRQ, with the pushed PC, the vector, the IFFs, the latches and the remaining cycles of `NmiServiced` and `IrqServiced`, the tick taken off `cycles` and not counted |
| `Z80Cpu.Z80A.ServiceNmi` | src/cpu/z80a.cpp:1859 | `NmiServiced`: the resume address is pushed, PC = 0x66, IFF1, the NMI latch and HALT clear, IFF2, the IRQ latch, the mode, the port log and the cycle counter are kept, and 10 cycles remain |
| `Z80Cpu.Z80A.ServiceIrq` | src/cpu/z80a.cpp:1860 | `IrqServiced`: with IFF1 set in mode 1 the resume address is pushed, PC = 0x38, both IFFs, the latch and HALT clear and 12 cycles remain; with IFF1 set in another mode only the IFFs and the latch clear, and with IFF1 clear only the latch, `cycles` wrapping to 255; nothing else changes |
| `Z80Cpu.Z80A.NextInstruction` | src/cpu/z80a.cpp:1862-1916 | `Decoded`: the bytes at PC are fetched and decoded, the latches are kept, `cycles` is the count the instruction is charged less one and the cycle counter grows by one |
| `Z80Cpu.Z80A.Dispatch` | src/cpu/z80a.cpp:1862-1912 | the four bytes at the old PC are the opcode, the prefix and the table index are decoded from them, and `cycles` is `Charged`: the entry's first count exactly when the state makes the handler report true (`Taken`), its second otherwise |
| `Z80Cpu.Z80A.Execute` | src/cpu/z80a.cpp:1909 | the handler a table entry names reports true exactly when the instruction counts as taken |
| `Z80Cpu.Z80A.ExecuteLoad8` | src/cpu/z80a.cpp:2089-2288 | the 8-bit load handlers always report true |
| `Z80Cpu.Z80A.ExecuteLoad16` | src/cpu/z80a.cpp:2292-2417 | the 16-bit load handlers always report true |
| `Z80Cpu.Z80A.ExecuteStack` | src/cpu/z80a.cpp:2420-2544 | the push, pop and exchange handlers always report true |
| `Z80Cpu.Z80A.ExecuteBlock` | src/cpu/z80a.cpp:2547-2649 | the single-step block transfer and search handlers always report true |
| `Z80Cpu.Z80A.ExecuteAlu` | src/cpu/z80a.cpp:2669-2990 | the 8-bit arithmetic and logic handlers always report true |
| `Z80Cpu.Z80A.ExecuteControl` | src/cpu/z80a.cpp:2994-3186 | INC, DEC and the general-purpose and CPU control handlers always report true |
| `Z80Cpu.Z80A.ExecuteAdd16` | src/cpu/z80a.cpp:3190-3287 | the 16-bit addition and subtraction handlers always report true |
| `Z80Cpu.Z80A.ExecuteStep16` | src/cpu/z80a.cpp:3290-3347 | the 16-bit increment and decrement handlers always report true |
| `Z80Cpu.Z80A.ExecuteRotate` | src/cpu/z80a.cpp:3351-3762 | the rotate and shift handlers always report true |
| `Z80Cpu.Z80A.ExecuteJump` | src/cpu/z80a.cpp:3766-3968 | the bit handlers and the absolute jumps always report true |
| `Z80Cpu.Z80A.ExecuteCall` | src/cpu/z80a.cpp:3986-4083 | CALL, RET, RET cc, RETI, RETN and RST always report true, RET cc included |
| `Z80Cpu.Z80A.ExecuteIo` | src/cpu/z80a.cpp:4087-4295 | the single-step input/output handlers and the undocumented and invalid placeholders always report true |
| `Z80Cpu.Z80A.ExecuteRepeat` | src/cpu/z80a.cpp:2562-2664 | LDIR, LDDR, CPIR and CPDR report true exactly when they repeat |
| `Z80Cpu.Z80A.ExecuteRepeatIo` | src/cpu/z80a.cpp:4132-4254 | INIR, INDR, OTIR and OTDR report true exactly when they repeat |
| `Z80Cpu.Z80A.ExecuteRelJump` | src/cpu/z80a.cpp:3899-3944 | JR C, JR NC, JR Z and JR NZ report true exactly when they jump |
| `Z80Cpu.Z80A.ExecuteCountCall` | src/cpu/z80a.cpp:3971-4014 | DJNZ and CALL cc report true exactly when they jump |
| `Z80Cpu.Z80A.LoadRegReg` | src/cpu/z80a.cpp:2089-2120 | LD r,r' copies the source register (IX/IY halves under DD/FD) into the destination and changes no other register; a code-6 source leaves the scratch byte as it was and a code-6 destination writes nothing |
| `Z80Cpu.Z80A.StoreReg` | src/cpu/z80a.cpp:2124-2145 | LD (HL)/(IX+d)/(IY+d),r stores the register (plain H and L even under a prefix) at that address and changes no other byte |
| `Z80Cpu.Z80A.LoadRegMem` | src/cpu/z80a.cpp:2149-2170 | LD r,(HL)/(IX+d)/(IY+d) loads the byte at that address into the register (plain H and L under a prefix) |
| `Z80Cpu.Z80A.LoadRegImm` | src/cpu/z80a.cpp:2174-2192 | LD r,n loads the immediate into the register, and LD (HL)/(IX+d),n stores it at the address; the operand byte is the one after the displacement where there is one |
| `Z80Cpu.Z80A.LoadAFrom` | src/cpu/z80a.cpp:2195-2219 | LD A,(BC)/(DE)/(nn) loads A from the address and leaves the flags |
| `Z80Cpu.Z80A.StoreA` | src/cpu/z80a.cpp:2222-2246 | LD (BC)/(DE)/(nn),A stores A at the address and changes no other byte |
| `Z80Cpu.Z80A.LoadASpecial` | src/cpu/z80a.cpp:2249-2270 | LD A,I and LD A,R load A and set S and Z from it, clear H and N, copy IFF2 into P/V and keep carry |
| `Z80Cpu.Z80A.StoreASpecial` | src/cpu/z80a.cpp:2273-2288 | LD I,A and LD R,A copy A into I or R and change nothing else |
| `Z80Cpu.Z80A.LoadPairImm` | src/cpu/z80a.cpp:2292-2306 | LD dd,nn loads the pair of bits 5-4 with the immediate word, which for IX and IY follows the prefix byte |
| `Z80Cpu.Z80A.LoadPairMem` | src/cpu/z80a.cpp:2309-2348 | LD HL/dd/IX/IY,(nn) loads the pair with the little-endian word at nn |
| `Z80Cpu.Z80A.StoreWord` | src/cpu/z80a.cpp:2351-2390 | LD (nn),HL/dd/IX/IY stores the pair little-endian at nn and nn + 1 and changes no other byte |
| `Z80Cpu.Z80A.LoadSP` | src/cpu/z80a.cpp:2393-2417 | LD SP,HL/IX/IY copies the pair into SP and changes nothing else |
| `Z80Cpu.Z80A.PushWord` | src/cpu/z80a.cpp:2420-2450 | PUSH qq/IX/IY pushes the pair below SP and moves SP down by two |
| `Z80Cpu.Z80A.PopPair` | src/cpu/z80a.cpp:2453-2465 | POP qq loads BC, DE, HL or AF with the word at SP and moves SP up by two |
| `Z80Cpu.Z80A.PopIndex` | src/cpu/z80a.cpp:2468-2483 | POP IX/IY loads the index register with the word at SP and moves SP up by two |
| `Z80Cpu.Z80A.ExDeHl` | src/cpu/z80a.cpp:2487-2494 | EX DE,HL swaps the two pairs; WZ ends holding the old HL |
| `Z80Cpu.Z80A.ExAf` | src/cpu/z80a.cpp:2497-2504 | EX AF,AF' swaps AF with its shadow (`SwapAf`, an involution); WZ ends holding the old AF |
| `Z80Cpu.Z80A.Exx` | src/cpu/z80a.cpp:2507-2514 | EXX swaps BC, DE and HL with their shadows (`SwapSets`, an involution); WZ ends holding the old HL |
| `Z80Cpu.Z80A.ExSp` | src/cpu/z80a.cpp:2517-2544 | EX (SP),HL/IX/IY swaps the pair with the word at SP |
| `Z80Cpu.Z80A.BlockLoad` | src/cpu/z80a.cpp:2547-2589 | LDI/LDD copies (HL) to (DE), steps DE and HL up or down, counts BC down, clears H and N and sets P/V exactly while BC is non-zero |
| `Z80Cpu.Z80A.BlockLoadRepeat` | src/cpu/z80a.cpp:2562-2604 | LDIR/LDDR does one LDI/LDD step and moves PC back to repeat exactly while BC is non-zero, reporting that |
| `Z80Cpu.Z80A.BlockCompare` | src/cpu/z80a.cpp:2607-2649 | CPI/CPD compares A with (HL) without changing A, steps HL, counts BC down, sets S, Z and the half borrow of the difference, P/V while BC is non-zero, and N |
| `Z80Cpu.Z80A.BlockCompareRepeat` | src/cpu/z80a.cpp:2622-2664 | CPIR/CPDR does one step and repeats exactly while BC is non-zero and A differed from (HL), reporting that |
| `Z80Cpu.Z80A.AluReg` | src/cpu/z80a.cpp:2669-2977 | the eight accumulator operations on a register, IX/IY half or memory operand set A and F as the ALU model says, CP leaving A unchanged |
| `Z80Cpu.Z80A.AluImm` | src/cpu/z80a.cpp:2696-2990 | the same eight operations on the immediate byte |
| `Z80Cpu.Z80A.IncReg` | src/cpu/z80a.cpp:2994-3017 | INC r/(HL)/(IX+d) writes the operand plus one back to where it came from and sets the INC flags, carry kept |
| `Z80Cpu.Z80A.DecReg` | src/cpu/z80a.cpp:3021-3044 | DEC r/(HL)/(IX+d) writes the operand minus one back and sets the DEC flags, carry kept |
| `Z80Cpu.Z80A.DecimalAdjust` | src/cpu/z80a.cpp:3048-3086 | DAA sets A and F to the decimal adjustment of A by H, C and N |
| `Z80Cpu.Z80A.Complement` | src/cpu/z80a.cpp:3089-3097 | CPL inverts every bit of A and sets H and N; the other flags stay |
| `Z80Cpu.Z80A.Negate` | src/cpu/z80a.cpp:3100-3109 | NEG sets A to 0 - A, P/V exactly when A was 0x80, C exactly when A was non-zero, N set |
| `Z80Cpu.Z80A.ComplementCarry` | src/cpu/z80a.cpp:3112-3118 | CCF copies the old carry into H, clears N and inverts C |
| `Z80Cpu.Z80A.SetCarry` | src/cpu/z80a.cpp:3121-3127 | SCF clears H and N and sets C |
| `Z80Cpu.Z80A.NoOperation` | src/cpu/z80a.cpp:3130-3134 | NOP, and the logging-only undocumented and invalid opcodes, change no register, memory or port |
| `Z80Cpu.Z80A.Halt` | src/cpu/z80a.cpp:3137-3144 | HALT sets the halt flag and moves PC back onto the HALT, so it is fetched again until an interrupt |
| `Z80Cpu.Z80A.SetInterrupts` | src/cpu/z80a.cpp:3147-3162 | DI clears and EI sets both interrupt flip-flops |
| `Z80Cpu.Z80A.SetIntMode` | src/cpu/z80a.cpp:3165-3186 | IM 0/1/2 sets the interrupt mode |
| `Z80Cpu.Z80A.AddPair` | src/cpu/z80a.cpp:3190-3207 | ADD HL,ss and ADD IX/IY,ss add the pair into the target modulo 2^16, set H and C from bits 12 and 16 and clear N |
| `Z80Cpu.Z80A.AdcHl` | src/cpu/z80a.cpp:3210-3227 | ADC HL,ss adds the pair and the carry modulo 2^16 and sets the 16-bit add-with-carry flags |
| `Z80Cpu.Z80A.SbcHl` | src/cpu/z80a.cpp:3230-3247 | SBC HL,ss subtracts the pair and the carry modulo 2^16 and sets the 16-bit borrow flags with N set |
| `Z80Cpu.Z80A.StepPair` | src/cpu/z80a.cpp:3290-3347 | INC/DEC ss, IX, IY step the pair by one modulo 2^16 and change no flag |
| `Z80Cpu.Z80A.RotateA` | src/cpu/z80a.cpp:3351-3402 | RLCA/RLA/RRCA/RRA rotate A, put the bit rotated out in C, clear H and N and keep S, Z and P/V |
| `Z80Cpu.Z80A.ShiftCb` | src/cpu/z80a.cpp:3405-3732 | the CB rotates and shifts write the shifted operand back (register or memory), set S, Z and parity of it, clear H and N and put the bit shifted out in C |
| `Z80Cpu.Z80A.RotateDigitLeft` | src/cpu/z80a.cpp:3735-3747 | RLD rotates the three nibbles of A's low half and (HL) left, writes (HL) and sets S, Z and parity of the new A |
| `Z80Cpu.Z80A.RotateDigitRight` | src/cpu/z80a.cpp:3750-3762 | RRD rotates them right, the inverse of RLD |
| `Z80Cpu.Z80A.BitTest` | src/cpu/z80a.cpp:3766-3789 | BIT b tests the operand's bit b into Z and P/V and changes no register but F |
| `Z80Cpu.Z80A.BitWrite` | src/cpu/z80a.cpp:3792-3861 | SET/RES b force bit b of the operand and write it back; no flag changes |
| `Z80Cpu.Z80A.Jump` | src/cpu/z80a.cpp:3865-3870 | JP nn and JP (HL)/(IX)/(IY) load PC and change nothing else |
| `Z80Cpu.Z80A.JumpCond` | src/cpu/z80a.cpp:3873-3888 | JP cc,nn loads PC exactly when the condition of bits 5-3 holds |
| `Z80Cpu.Z80A.JumpRel` | src/cpu/z80a.cpp:3891-3896 | JR e moves PC by the sign-extended displacement |
| `Z80Cpu.Z80A.JumpRelCond` | src/cpu/z80a.cpp:3899-3944 | JR cc moves PC by the displacement and reports true exactly when the condition holds |
| `Z80Cpu.Z80A.DecJumpNonZero` | src/cpu/z80a.cpp:3971-3982 | DJNZ counts B down and jumps, reporting true, exactly while it is non-zero |
| `Z80Cpu.Z80A.Call` | src/cpu/z80a.cpp:3986-3996 | CALL nn pushes the return address and loads PC with the operand word |
| `Z80Cpu.Z80A.CallCond` | src/cpu/z80a.cpp:3999-4014 | CALL cc,nn calls exactly when the condition holds and reports that; otherwise nothing changes |
| `Z80Cpu.Z80A.Return` | src/cpu/z80a.cpp:4017-4061 | RET, RETI and RETN pop PC; RETN also copies IFF2 into IFF1 |
| `Z80Cpu.Z80A.ReturnCond` | src/cpu/z80a.cpp:4026-4041 | RET cc pops PC exactly when the condition holds |
| `Z80Cpu.Z80A.Restart` | src/cpu/z80a.cpp:4064-4083 | RST p pushes the return address and jumps to 8 × p |
| `Z80Cpu.Z80A.InAImm` | src/cpu/z80a.cpp:4087-4092 | IN A,(n) loads A from port n and leaves the flags |
| `Z80Cpu.Z80A.InRegC` | src/cpu/z80a.cpp:4095-4116 | IN r,(C) loads the register from port C (none for code 6 and the undocumented IN (C)) and sets S, Z and parity of the byte, H and N clear |
| `Z80Cpu.Z80A.BlockIn` | src/cpu/z80a.cpp:4119-4157 | INI/IND stores the byte of port C at (HL), steps HL, counts B down and sets Z exactly when B reaches 0 |
| `Z80Cpu.Z80A.BlockInRepeat` | src/cpu/z80a.cpp:4132-4172 | INIR/INDR does one step and repeats exactly while B is non-zero |
| `Z80Cpu.Z80A.OutImmA` | src/cpu/z80a.cpp:4175-4180 | OUT (n),A writes A to port n |
| `Z80Cpu.Z80A.OutCReg` | src/cpu/z80a.cpp:4183-4198 | OUT (C),r writes the register to port C; code 6 writes nothing |
| `Z80Cpu.Z80A.OutC0` | src/cpu/z80a.cpp:4277-4282 | the undocumented OUT (C),0 writes 0 to port C |
| `Z80Cpu.Z80A.BlockOut` | src/cpu/z80a.cpp:4201-4239 | OUTI/OUTD writes (HL) to port C, steps HL, counts B down and sets Z exactly when B reaches 0 |
| `Z80Cpu.Z80A.BlockOutRepeat` | src/cpu/z80a.cpp:4214-4254 | OTIR/OTDR does one step and repeats exactly while B is non-zero |

## Left out

- The SDL front end (`src/segasmu.cpp`, `src/segaemu.h`, `src/main.cpp`): window, audio device, gamepad plumbing and the chrono/float frame pacing are host I/O.
- The mixing half of `PSG::clock` (every 81st clock), `GetSample` and `GetSamplePerFrame`: they mix floating-point samples through a low-pass filter whose implementation (`filt.h`) is not part of this model. The model keeps the channel steps, each channel's output level as a boolean, the attenuation index each channel holds and the PSG's tick counter, not the attenuation values, the mixed output or the samples-per-frame count.
- The `std::mutex` of the circular buffer guards against concurrent access only; the model is single-threaded.
- Cartridge and BIOS loading (`src/memory/cartridge.cpp`, `src/memory/bios.cpp`) read files through `ifstream`. The ROM image is a constructor parameter instead, the header fields are never used by the code, and the BIOS is never loaded into the console.
- `SMS::InsertCartridge` and `SMS::RemoveCartridge`: the model starts with the cartridge inserted and keeps the `cartInserted` flag in every read and write path.
- `src/memory/mappercodemaster.h` is not part of this model: its implementation is not available.
- `Z80A::disassemble`, `src/debugger/debugconsole.cpp` and every `LOG_F` call only produce text.
- VDP `palScreen`, the RGBA conversion, `GetCharTable`, `GetScreen` and the plain getters: the framebuffer holds CRAM colour bytes instead of RGBA values, and the debug views are not modelled.
- `CommandLine::getIntValue` is never called by `parse`.
- The CPU reads memory through a flat 64 KiB memory function and reads ports through a function-valued field, and it records port writes in a log. It does not call back into `SMS::readMem`, `SMS::writeMem` or `SMS::readIO`. The bus decoding is modelled separately on `MasterSystem.Sms`, so the model does not capture one instruction's effect on the mapper or the VDP.
- The VDP's pointer to the CPU becomes an interrupt flag that `Clock` returns. `MasterSystem.Sms` passes that flag on to the CPU's IRQ latch.
- Fields the source leaves uninitialised become constructor parameters: the controller region, the circular buffer's length, WZ, `row_number`, `nameTabAddr` and `sprAttrTabAddr`.
- `FrameBuffer::SetPixel` has no bounds check in the source. The VDP model drops a plot whose linear index falls outside the buffer. One case is line 255 when active plus additional lines reach 256 but the buffer has only 240 lines.
- Reads past the end of VRAM or of the ROM image give 0 or `None` in the model, where the source would read out of bounds.
- `nameTabAddr` is computed from register 2, but only when register 6 is written (the lambda is named after register 6). The model follows that code.
- The vertical-scroll-inhibit tests use `col < 25` for the tile row and `current_col < 25` for the fine scroll, so column 24 still scrolls although the comment names columns 24-31. The model follows the code.
- `Z80A::isP`: its comment says it returns 0 for an even number of set bits, but the code returns true for an even count, which is the Z80's P/V meaning. The model follows the code (`Z80Flags.IsP`).
- Z80Cpu.Z80A.ExecuteLoad8: states only the handler's `true` result; each handler's own contract states its effect.
- Z80Cpu.Z80A.ExecuteLoad16: states only the handler's `true` result, for the same reason.
- Z80Cpu.Z80A.ExecuteStack: states only the handler's `true` result, for the same reason.
- Z80Cpu.Z80A.ExecuteBlock: states only the handler's `true` result, for the same reason.
- Z80Cpu.Z80A.ExecuteAlu: states only the handler's `true` result, for the same reason.
- Z80Cpu.Z80A.ExecuteControl: states only the handler's `true` result, for the same reason.
- Z80Cpu.Z80A.ExecuteAdd16: states only the handler's `true` result, for the same reason.
- Z80Cpu.Z80A.ExecuteStep16: states only the handler's `true` result, for the same reason.
- Z80Cpu.Z80A.ExecuteRotate: states only the handler's `true` result, for the same reason.
- Z80Cpu.Z80A.ExecuteJump: states only the handler's `true` result, for the same reason.
- Z80Cpu.Z80A.ExecuteCall: states only the handler's `true` result, for the same reason.
- Z80Cpu.Z80A.ExecuteIo: states only the handler's `true` result, for the same reason.
- Z80Cpu.Z80A.ExecuteRepeat: states only whether the instruction repeats, not the register and memory effect, which the handlers state.
- Z80Cpu.Z80A.ExecuteRepeatIo: states only whether the instruction repeats, for the same reason.
- Z80Cpu.Z80A.ExecuteRelJump: states only whether the jump is taken, for the same reason.
- Z80Cpu.Z80A.ExecuteCountCall: states only whether the jump is taken, for the same reason.
- Z80Cpu.Z80A.Execute: states the taken result, not the new register file. Each handler's contract states its own effect, and the dispatch proof does not restate them.
- Z80Cpu.Z80A.Clock: on the instruction path it states the decode, the latches and the charged cycles (`Decoded`), not the handler's effect on registers, memory, the IFFs or the port log; each handler's contract states that effect, and the clock proof does not compose them. The interrupt paths are stated in full.
- Z80Cpu.Z80A.NextInstruction: states the decode and the charged cycles, not the handler's effect, for the same reason.
- Z80Cpu.Z80A.Dispatch: states the decode and the charged cycles, not the handler's effect on registers, memory, the IFFs or the port log, for the same reason.
- MasterSystem.Sms.RunCpu: on a CPU tick at an instruction boundary it states the CPU through `Z80Cpu.Z80A.ClockedFrom`, so the instruction's effect on registers and memory is not stated, as for `Z80Cpu.Z80A.Clock`.
- MasterSystem.Sms.CpuPhase: the CPU half carries the same gap as `Z80Cpu.Z80A.Clock`.
- MasterSystem.Sms.ClockDevices: the CPU half carries the same gap as `Z80Cpu.Z80A.Clock`.
- MasterSystem.Sms.Clock: the CPU half carries the same gap as `Z80Cpu.Z80A.Clock`.
- Video.Vdp.constructor: the source builds `bplShifter{ 4 }` (src/video/vdp.h:105), which allocates four bytes, yet `GetPixelColor` reads and shifts index 4 (src/utils/bitplaneshifter.cpp:36-40), one past the allocation. The model gives that slot its own array cell and starts it at 0, so the first eight pixels are drawn as if the stray heap byte were clear. The undefined read itself is not modelled.
- Bitplanes.BitplaneShifter: the array holds one slot more than the planes requested, so the read of index `n` in `GetPixelColor`, undefined behaviour in the source, reads a defined cell in the model.
- RingBuffer.CircularBuffer.PutSample: the read and write pointers are `int` in the source (src/utils/circularbuffer.h:24-25), so after about 2^31 samples the write pointer overflows (undefined) and a negative `%` would index out of bounds. The model's pointers are unbounded integers and never overflow.
- RingBuffer.CircularBuffer.GetSample: the same overflow of the `int` read pointer is not modelled.
